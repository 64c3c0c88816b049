# Verification of the JSOC remote-SUMS daemon and three of its neighbours

This project models, in Dafny, the parts of the JSOC/DRMS repository in which the most can
go wrong, and proves properties of the models.

* The Remote-SUMS daemon `rsumsd.py`. Clients ask for sets of storage units by their SUNUMs.
  Requests share storage units: `suDict` holds a reference-counted object for each, and
  `suMap` the list of the requests that wait for it. Main, the Dispatchers, the Downloaders
  and the ScpWorkers move every storage unit through the statuses P, W, D, F, C or E.
  * `SuTables`, `SuLists`, `StorageUnits` and `RequestTable` model the tables: what an
    operation does to them as a value, and the classes `SuTable` and `ReqTable` whose methods
    do it in place, with the exceptions that they meet and the rollback.
  * `Selection` models how an ScpWorker chooses the storage units of its next download.
  * `Daemon` is the whole daemon as a labelled transition system; a step is what one thread
    does in one hold of a lock. `DaemonTable`, `DaemonFlight` and `FlightSteps` hold the
    invariants, `DaemonRuns`, `DaemonVerdicts` and `DaemonOutcomes` what follows for whole runs,
    `DaemonClasses` what happens when USER and other requests share storage units, and
    `DaemonFailures` concrete runs that go wrong.
  * `SumsPort` models the four database commits of each Downloader, in any interleaving.
  * `Locks` models which thread takes which lock in which order, and what it touches meanwhile.
* `FortranStrings`: the conversion of C and Fortran strings in `cfortran.h`, on arrays, with
  the in-place uses.
* `Substitution`: the substitution of names in index definitions in `createtabstructure.c`.
* `Sites`: the SUNUM ranges of `seed_sums.c` and the decoding of site codes in the daemon.

`dfyconfig.toml` lists all files: `dafny verify dfyconfig.toml` checks the project.

## Findings

Some properties that the code or its comments suggest do not hold. Each has a concrete
witness and an exact condition.

* **Repeated SUNUM.** `dispatchSUs` takes the SUNUMs that were dispatched before from the
  request's own list, which may repeat one. Then the dispatch fails half-way, and the rollback
  does not take the request off those lists: `suMap` mentions a request that holds no reference.
  The tables agree after a dispatch exactly when the queue was full or no such SUNUM is
  repeated (`SuTable.DispatchSUs`), and over a run exactly as long as no dispatched request
  repeats a listed SUNUM (`AgreeUnlessRepeated`). Witnesses: `RepeatedSunum`, `RepeatedListed`.
* **Deleted in flight.** When the row of the only request for a storage unit is deleted while
  the storage unit is downloaded, main ends with a KeyError at its completion item.
  Condition: `ReleasesNoFlight`. Witness: `DeletedInFlight`.
* **Stale chunk.** When the dispatcher queue is full in the middle of a request, the rollback
  leaves its earlier chunks in the queue. After the second attempt a storage unit is handled
  twice and yields two completion items. Condition: nothing had been queued. Witness: `StaleChunk`.
* **Mixed classes.** Main looks at Downloaders under the lock of the request's class, not of
  the storage unit's. If requests of both classes share a storage unit, main can take a
  Downloader for dead that is about to start, and main ends with a KeyError later. This can
  happen exactly between `setWorker` and `start`, for a pending request of the other class
  (`LostIffMixed`); it cannot happen when no request shares a storage unit with a pending
  request of the other class (`CarefulRunIsGood`). Witness: `MixedClasses`.
* **Refresh.** `refresh` fails, with an exception, when a request that vanished is not listed
  for a storage unit of its that is in the table (a finished request, for instance, whose
  storage unit others still share), and when it meets a row that is not new and was never seen
  (`ReqTable.Refresh`, exact condition).
* **Site codes.** `seed_sums` accepts codes up to 32767, the daemon decodes only those up to
  16383 (`SeedAndDecodeAgree`); and `getCode` looks at two bits of an unbounded integer, so
  beyond 64 bits it accepts codes modulo 65536 (`GetCodeOnAnyInteger`).
* **Erasing.** With an empty replacement the `replacestr` loop stops at an occurrence on its
  cursor (`LoopIsScan`, exact condition; witness `ErasingCanStop`).

## Model

| member | source | states |
|---|---|---|
| SuTables.JoinAgrees | base/drms/scripts/rsumsd.py:928-955 | a request that is listed nowhere joins any distinct storage units and `suDict`, refcounts and `suMap` still agree; it is then listed for exactly these |
| SuTables.ReleaseAgrees | base/drms/scripts/rsumsd.py:1206-1213 | taking a request off its storage units keeps the agreement; a storage unit leaves the table only when the last listed request goes |
| SuTables.ReleaseUndoesJoin | base/drms/scripts/rsumsd.py:3192-3205 | releasing what was just joined gives back the same tables |
| SuLists.DropUndoesJoin | base/drms/scripts/rsumsd.py:3192-3203 | the rollback's list removals followed by its reference drops undo a dispatch of any distinct storage units |
| SuLists.PartialDisagrees | base/drms/scripts/rsumsd.py:3131-3146 | listing a request without counting its references breaks the agreement |
| StorageUnits.SuTable.AddSUs | base/drms/scripts/rsumsd.py:928-955 | every known occurrence counts one more reference on the same object, every unknown one gets a new object with one reference and the given status |
| StorageUnits.SuTable.RemoveSUs | base/drms/scripts/rsumsd.py:1011-1027 | one reference less for each occurrence that is present on entry; the last one takes the object out |
| StorageUnits.SuTable.AddRequestToSUMap | base/drms/scripts/rsumsd.py:1196-1204 | lists the request in order, and stops exactly at the first list that mentions it already |
| StorageUnits.SuTable.RemoveRequestFromSUMap | base/drms/scripts/rsumsd.py:1206-1213 | takes the request off in order, deletes empty lists, and stops exactly at the first list that does not mention it |
| StorageUnits.SuTable.AddSUChunk | base/drms/scripts/rsumsd.py:2882-2928 | a full queue changes nothing; otherwise the request has joined the chunk with new objects in status P |
| StorageUnits.SuTable.DispatchSUs | base/drms/scripts/rsumsd.py:3074-3205 | it succeeds if and only if all chunks fit and no listed SUNUM is repeated; then the request joined exactly its SUNUMs, with new objects P, E or C and completion items for the last two; a full queue restores `suDict`, refcounts and `suMap`; a repetition, and only that, leaves tables that disagree |
| StorageUnits.SuccessMeans | base/drms/scripts/rsumsd.py:3108-3190 | after a successful dispatch the table has, for each storage unit in a chunk, without a site or online, an object that is P, E or C with one reference and the request alone; one that was dispatched before keeps its object, has one more reference and lists the request last; all others are as before |
| StorageUnits.SuTable.ReleaseRequest | base/drms/scripts/rsumsd.py:3515-3531 | succeeds if and only if every list of a storage unit in the table mentions the request, and then the tables are those without it, and agree |
| StorageUnits.RepeatedSunum | base/drms/scripts/rsumsd.py:3093-3097 | request 1 for [7] and request 2 for [7, 7]: the second dispatch fails and the tables disagree |
| RequestTable.VanishedLeaveNoTrace | base/drms/scripts/rsumsd.py:1383-1397 | tracked requests that vanish can all be released; they disappear from every list, nothing else leaves any list, and the tables agree, so that shared storage units lose exactly their references |
| RequestTable.ReleaseAnyOrder | base/drms/scripts/rsumsd.py:1391-1395 | the order in which `set` lists the SUNUMs does not matter for the tables |
| RequestTable.ReqTable.Refresh | base/drms/scripts/rsumsd.py:1358-1407 | succeeds if and only if all vanished requests can be released and no unseen row has left N; then the rows are those of the database, and every row that is not new keeps its list of completed storage units |
| RequestTable.ReqTable.Consume | base/drms/scripts/rsumsd.py:3453-3496 | the item leaves the queue and any status but C becomes E; each listed request has the SUNUM in its completed list afterwards, once more than before only if it was not there, and is unchanged otherwise; no other request changes; it fails exactly for a missing list or an unknown request |
| RequestTable.ReqTable.CompleteRequest | base/drms/scripts/rsumsd.py:3505-3540 | a request finishes exactly when its completed SUNUMs are its SUNUMs; it is E if and only if one of its storage units in the table is E, and C otherwise; it is released, and nothing else of the rows changes |
| Selection.BestIsBest | base/drms/scripts/rsumsd.py:1154-1155 | the priority of a storage unit is the least of its requests' priorities, and at most 0 exactly if one is USER |
| Selection.SortedIsOrdered | base/drms/scripts/rsumsd.py:1158-1159 | sorting gives a permutation that is ordered by priority, then start time |
| Selection.NextIsNext | base/drms/scripts/rsumsd.py:1136-1190 | the choice meets a declarative specification: ready storage units within the limit, all of the site of one that no other ready one precedes, as many as there are up to the number wanted, in order, and none that was left out precedes one that was taken |
| Selection.HighestTakesUserOnly | base/drms/scripts/rsumsd.py:151-155 | an ScpWorker of priority 0 may take a storage unit exactly when some USER request wants it |
| Selection.AgreeingIsReadable | base/drms/scripts/rsumsd.py:1154-1155 | when the tables agree, only a listed request that the request table does not know makes the collection fail |
| Selection.Pick | base/drms/scripts/rsumsd.py:1161-1184 | the loop over the sorted list chooses exactly the specified candidates, and touches exactly the waiting ones that it reaches |
| Selection.NextIsMostUrgent | base/drms/scripts/rsumsd.py:1154-1184 | the choice among the candidates is the most urgent one on the table itself, by the types of requests (0, 10, 100) and the start times of the objects |
| Selection.GetNextNWorkingSUs | base/drms/scripts/rsumsd.py:1136-1190 | it gives W storage units with Downloaders at one user, host and port, each wanted by a request within the limit, none twice, at most `maxsus`, in order: a smaller least number of the requests first, then the older start; nothing eligible goes before the first; one of that site is left out only when `maxsus` that go before it were taken; nothing when the tables cannot be read |
| Selection.TakeBatch | base/drms/scripts/rsumsd.py:1752-1771 | the batch is a prefix of at most `maxsus` with at most `maxpayload` in all, unless it is one storage unit of any size, and the next one would be too many or too much; it is not empty if anything was collected and `maxsus` is at least 1 |
| Selection.NothingLonger | base/drms/scripts/rsumsd.py:1752-1771 | no longer prefix is within the limits |
| Selection.Start | base/drms/scripts/rsumsd.py:1752-1806 | a download starts exactly when it is due, and then exactly the batch is marked D |
| Selection.Claim | base/drms/scripts/rsumsd.py:1746-1814 | in one hold of the lock: what is marked D was W before and is the longest allowed prefix of the most urgent storage units on the table, if a download is due, and no other status changes |
| DaemonTable.StepKeepsTables | base/drms/scripts/rsumsd.py:928-1027 | every step of every thread keeps the agreement of the tables, that listed requests are pending ones that want the storage unit, and that a request is listed for all or none of its storage units, unless it dispatches a repeated listed SUNUM |
| DaemonTable.RepeatBreaksTables | base/drms/scripts/rsumsd.py:3131-3146 | such a dispatch always breaks the agreement |
| DaemonRuns.TablesAlwaysAgree | base/drms/scripts/rsumsd.py:3074-3205 | the same in every state of every run without such a dispatch |
| DaemonRuns.AgreeUnlessRepeated | base/drms/scripts/rsumsd.py:3093-3097 | the tables agree over a run, while main is up, if and only if no dispatched request repeated a listed SUNUM |
| DaemonRuns.DistinctListsNeverRepeat | base/drms/scripts/rsumsd.py:1317-1318 | request lists without repetitions are enough for that |
| FlightSteps.LocalFits | base/drms/scripts/rsumsd.py:2085-2175 | every move of one thread on one storage unit keeps its status, worker, claim and notifications consistent with its stage, gives the status that the move means (C for a success, F for a fetched one, E for a failed one) and brings the thread to the next place of its program |
| FlightSteps.StepKeepsFlight | base/drms/scripts/rsumsd.py:3453-3540 | every step that obeys the rules keeps all storage units in flight consistent |
| FlightSteps.RulesAreExact | base/drms/scripts/rsumsd.py:3453-3582 | an enabled step keeps that invariant if and only if it obeys the rules |
| DaemonRuns.InFlightStays | base/drms/scripts/rsumsd.py:2477-2482 | in every good run a storage unit whose item was not consumed is in the table and in `suMap`, with a refcount of at least 1 |
| DaemonRuns.MainStaysUp | base/drms/scripts/rsumsd.py:3479-3496 | main never meets a missing `suMap` key, list entry or request |
| DaemonRuns.NotificationsAreHeard | base/drms/scripts/rsumsd.py:2098-2133 | every notify finds its Downloader inside `wait`, and the Downloader wakes with status D, F or E |
| DaemonRuns.StatusHistory | base/drms/scripts/rsumsd.py:2743-2758 | every status change is legal; C comes only from F by a successful download or from P by the Dispatcher, F only from D by the ScpWorker that has claimed the storage unit |
| DaemonRuns.ExactlyOneItem | base/drms/scripts/rsumsd.py:2859-2863 | each storage-unit object yields one completion item, when its thread is done with it, and main consumes it at most once |
| DaemonRuns.ConsumedIsFinal | base/drms/scripts/rsumsd.py:3467-3476 | what main consumed is C or E and never changes again |
| DaemonVerdicts.DoneWasConsumed | base/drms/scripts/rsumsd.py:3482-3491 | a pending request counts a storage unit as done only after main consumed the item of that very object while the request was listed, and it was pending ever since |
| DaemonVerdicts.Verdict | base/drms/scripts/rsumsd.py:3505-3540 | a request that ends was told of each of its storage units after it joined; it is E if and only if one ended E, and otherwise C with all of them C |
| DaemonVerdicts.PendingEndsWithVerdict | base/drms/scripts/rsumsd.py:3515-3540 | a request leaves P only by a verdict or by deletion of its row |
| DaemonVerdicts.TimedOutNeverFetched | base/drms/scripts/rsumsd.py:1866-1885 | a storage unit that its ScpWorker timed out is D or E ever after, never F |
| DaemonVerdicts.StatusesGoForward | base/drms/scripts/rsumsd.py:1805-1806 | no storage unit ever goes back to an earlier status |
| DaemonVerdicts.ClaimedOnce | base/drms/scripts/rsumsd.py:1746-1814 | the batches of any two claims in a run are disjoint |
| DaemonVerdicts.BatchesAreDisjoint | base/drms/scripts/rsumsd.py:1791-1809 | in every state no two ScpWorkers have the same storage unit, and what they have is being downloaded |
| DaemonOutcomes.ThreadsDoAsTold | base/drms/scripts/rsumsd.py:2426-2482 | in every good run each step of a Dispatcher, Downloader or ScpWorker gives its storage unit the status and stage that it means, and no other one changes |
| DaemonOutcomes.ReportsAreTrue | base/drms/scripts/rsumsd.py:1905-1948 | what an ScpWorker reports was D, and is F if it was fetched, E if scp failed, and still D if it timed out |
| DaemonOutcomes.IngestedIsComplete | base/drms/scripts/rsumsd.py:2437-2439 | a storage unit whose download was entered into SUMS is C in every later state |
| DaemonOutcomes.CompleteIffSucceeded | base/drms/scripts/rsumsd.py:2439-2439 | in every state of every good run a storage unit is C if and only if it was ingested, skipped as complete by the Dispatcher, or online when it was created |
| DaemonOutcomes.ConsumedIsTrue | base/drms/scripts/rsumsd.py:3467-3476 | what main consumed is C if it had succeeded in one of these ways, and E otherwise |
| DaemonOutcomes.VerdictIsTrue | base/drms/scripts/rsumsd.py:3505-3540 | a request that ends completes if and only if each of its storage units had succeeded, and fails otherwise |
| DaemonOutcomes.ItemsAreCounted | base/drms/scripts/rsumsd.py:3479-3491 | after main consumed an item every listed request counts the storage unit, no other request changes, and no other storage unit |
| DaemonOutcomes.DispatchCreates | base/drms/scripts/rsumsd.py:3108-3190 | a dispatched request is pending and listed for all its storage units; new ones that are online are C, those without a site E, both with their item, and the others P in a chunk for the Dispatcher of the request's class; known ones stay as they are |
| DaemonOutcomes.RowsChange | base/drms/scripts/rsumsd.py:1383-1407 | a row that arrives is entered, one that was deleted is gone and listed nowhere, one that timed out has failed, one that ended is listed nowhere; all other rows stay |
| DaemonOutcomes.ClaimTakes | base/drms/scripts/rsumsd.py:1791-1809 | what an ScpWorker claims was W, is D and is its own afterwards, and nothing else changes |
| DaemonOutcomes.ChunkIsTaken | base/drms/scripts/rsumsd.py:2694-2702 | a Dispatcher that takes a chunk holds exactly the storage units of that chunk |
| DaemonClasses.LostIffMixed | base/drms/scripts/rsumsd.py:3554-3582 | main can take a Downloader for dead if and only if it is assigned and not started and a pending request of the other class wants its storage unit |
| DaemonClasses.MixedCanBeLost | base/drms/scripts/rsumsd.py:2514-2525 | a mixed storage unit that a Dispatcher holds is always two steps from that, and the invariant is lost then |
| DaemonClasses.CarefulRunIsGood | base/drms/scripts/rsumsd.py:3554-3582 | if no request shares a storage unit with a pending one of the other class, and the rules on rows and queue hold, no Downloader is ever taken for dead and all results on good runs apply |
| DaemonFailures.DeletedInFlight | base/drms/scripts/rsumsd.py:1383-1397 | a run with one deleted row after which main ends with a KeyError |
| DaemonFailures.StaleChunk | base/drms/scripts/rsumsd.py:3108-3129 | a run with one full queue after which a storage unit has two completion items |
| DaemonFailures.MixedClasses | base/drms/scripts/rsumsd.py:3554-3582 | a run with one Downloader taken for dead, after which main ends with a KeyError |
| DaemonFailures.RepeatedListed | base/drms/scripts/rsumsd.py:3131-3146 | a run with one repeated SUNUM after which the tables disagree |
| SumsPort.StepKeepsInv | base/drms/scripts/rsumsd.py:2226-2389 | every commit of any Downloader leaves each Downloader with exactly the rows of its stage |
| SumsPort.AlwaysInStage | base/drms/scripts/rsumsd.py:2226-2389 | the same in every state of every interleaving, where all other rows are as they were |
| SumsPort.ClosedHasEntered | base/drms/scripts/rsumsd.py:2305-2382 | a Downloader that closed leaves one row in sum_main and one in sum_partn_alloc, with its sumid, SUNUM, directory and size, status 4 with a tape system and 2 without, substatus 32; no other row has its sumid, none in sum_open; without tapes no other row of status 2 has its SUNUM |
| SumsPort.CloseDeletes | base/drms/scripts/rsumsd.py:2368-2379 | `SUM_close` deletes exactly the rows of status 1 or 8 of its sumid and the sum_open rows of its sumid |
| SumsPort.TapesDeleteNothing | base/drms/scripts/rsumsd.py:2329-2351 | with a tape system the rows of status 2 are always those of the beginning, and no older row is lost |
| SumsPort.AllEntered | base/drms/scripts/rsumsd.py:2226-2389 | when all have closed, sum_open is as before, sum_main has gained exactly one row for each storage unit, and sum_partn_alloc too, having lost exactly the superseded older rows |
| Locks.ScriptFollows | base/drms/scripts/rsumsd.py:1740-1750 | every piece of every thread's program takes locks in rank order, touches data only under their lock, waits while it holds nothing but its condition, and ends without a lock |
| Locks.LocksAreOrdered | base/drms/scripts/rsumsd.py:3479-3496 | in every state of every run whoever asks for a lock holds only earlier ones and never that lock, two threads never hold one lock, and a sleeping thread holds none |
| Locks.NoCircle | base/drms/scripts/rsumsd.py:3554-3582 | no threads ever wait for each other in a circle |
| Locks.NoRace | base/drms/scripts/rsumsd.py:1746-1814 | no two threads ever touch the same guarded data at a time |
| Locks.NotifiedThreadWakes | base/drms/scripts/rsumsd.py:1877-1883 | a notified thread is awake and takes its condition lock before anything else; no other thread changes |
| Locks.WaitingReleases | base/drms/scripts/rsumsd.py:2098-2122 | in `wait` a thread gives its condition lock up, which is free then, and sleeps |
| Locks.NoDeadlock | base/drms/scripts/rsumsd.py:1867-1885 | whenever a thread is in the middle of a piece and awake, some thread can go on |
| FortranStrings.C2fstrv | base/cfortran.h:511-525 | each Fortran element is its C element padded with blanks, also in place; nothing else is written; the result is the start of the vector, less the rest of an incomplete element |
| FortranStrings.F2cstrv | base/cfortran.h:528-542 | each C element is its Fortran element and a NUL, also in place; nothing else is written; the result is the start |
| FortranStrings.KillTrailing | base/cfortran.h:545-554 | the string loses its trailing characters, and only them |
| FortranStrings.KillTrailingN | base/cfortran.h:556-571 | one NUL is written, behind the last other character, and nothing when the end lies before the string |
| FortranStrings.VKillTrailing | base/cfortran.h:573-583 | the same for each element of a vector, and nothing outside |
| FortranStrings.ElementRoundTrip | base/cfortran.h:511-583 | one element, to Fortran and back, is its string without trailing blanks |
| FortranStrings.FortranElementRoundTrip | base/cfortran.h:511-583 | one element, to C and back, is itself if and only if it holds no NUL |
| FortranStrings.PassVector | base/cfortran.h:878-885 | a C vector converted in place and back keeps every string but its trailing blanks, for all lengths and counts |
| FortranStrings.FortranVectorRoundTrip | base/cfortran.h:2165-2166 | a Fortran vector is restored if and only if it holds no NUL |
| FortranStrings.PassFortranVector | base/cfortran.h:2165-2166 | the same for the conversions with fresh memory, and nothing outside is written |
| FortranStrings.TtStr | base/cfortran.h:2161-2162 | a fresh C string with the contents, without trailing blanks |
| FortranStrings.RrrrPStr | base/cfortran.h:2203-2204 | the C string is copied back, cut or padded to the length |
| FortranStrings.StringRoundTrip | base/cfortran.h:2161-2204 | there and back restores a string if and only if it holds no NUL |
| FortranStrings.PassFortranString | base/cfortran.h:2161-2204 | the same for the conversions in memory |
| FortranStrings.NumElem | base/cfortran.h:618-636 | the number of elements before the first one that begins with the terminators |
| Substitution.FindIsLeftmost | base/drms/apps/createtabstructure.c:98 | the search gives the leftmost occurrence from a position on |
| Substitution.ScanJoinsPieces | base/drms/apps/createtabstructure.c:544-561 | left-to-right replacement joins with the replacement the pieces that the pattern separates, and no piece holds the pattern |
| Substitution.LoopIsScan | base/drms/apps/createtabstructure.c:547-550 | the loop performs this replacement if and only if the replacement is not empty or no occurrence on the cursor is followed by another |
| Substitution.ErasingCanStop | base/drms/apps/createtabstructure.c:547-550 | a text on which erasing stops early |
| Substitution.ReplaceStr | base/drms/apps/createtabstructure.c:88-115 | the buffer holds the text with the first occurrence replaced, cut to its size, and the result points behind the replacement; nothing changes when nothing was found |
| Substitution.ReplaceAll | base/drms/apps/createtabstructure.c:544-551 | the loop ends, and leaves the text of the loop in the buffer |
| Substitution.RewriteIndex | base/drms/apps/createtabstructure.c:530-564 | a row is left out exactly when it contains "(recnum)"; in any other the new table name joins what the old one separates, in the text in which the new series name joins what the old one separates |
| Sites.SeedRangeExact | seed_sums.c:16-25 | no bound wraps around, and the range has 2^48 members |
| Sites.RangesTile | seed_sums.c:16-25 | the ranges of the codes 0 to 32767 are disjoint and tile 0 to 2^63-1 |
| Sites.SeedAndDecodeAgree | base/drms/scripts/rsumsd.py:1651-1657 | every SUNUM of a range decodes to its code if and only if the code is at most 16383 |
| Sites.GetCodeAccepts | base/drms/scripts/rsumsd.py:1651-1657 | a signed 64-bit SUNUM is accepted if and only if its code is in 0 to 16383 |
| Sites.GetCodeOnAnyInteger | base/drms/scripts/rsumsd.py:1651-1657 | what is accepted without the 64-bit bound |

## Left out

Guards, which the results on good runs need and the code does not enforce; `DaemonFlight.Obeys`
states them, and `RulesAreExact` proves that none can be dropped.

- A row that appears in the database is new.
- A request that vanishes is listed for all its storage units in the table, and takes none out that is in flight.
- When the dispatcher queue is full, no chunk of the request was queued before.
- No dispatched request repeats a listed SUNUM.
- Main does not take a Downloader for dead that is about to start.

What the model does not contain:

- The 8-hour wait of a Downloader does not expire, and nothing is shut down; the steps of these do not exist in `Daemon`.
- The provider's answer is well formed, so that the Dispatcher's error branches do not come after a Downloader has started.
- Real time: request and download time-outs are steps that may come at any time; start times are whole seconds, and one clock reading serves one hold of the lock.
- Threads' class limits, the events that wake threads for free slots and work, and liveness: no result says that a request completes.
- The completion queue is a multiset and the dispatcher queue a map in `Daemon`, so results hold for any order of service; `SuTable` keeps the order.
- Each storage unit that an ScpWorker reports on is a step of its own in `Daemon`, which allows more interleavings than the code.
- The Dispatcher meets only storage units that are queued or done when it takes a chunk; what it does with the stale chunk of a storage unit that is being downloaded is not a step.
- The Downloader's own `setStatus('E')` may or may not take effect, because the log call before it passes the result of `list.extend`; verdicts come from main's normalisation.
- After an exception reached the top of main no result speaks of the tables: an exception in the middle of a release may leave parts of it behind.
- SUMS commits succeed, and a Downloader that fails and its compensating deletes are not modelled; Downloaders have distinct SUNUMs, and no other program changes the tables meanwhile.
- Locks inside queues, events and the logger, and the reentrant second acquisitions of the database lock; the clean-up of `TerminationHandler`.
- The splitting of a request into chunks by `Chunker`: any chunks are allowed.
- Network, database and scp calls, the file system and logging; their outcomes are free.
- In `Substitution` the caller answers for the room behind the cursor and for non-empty patterns, as in the code; characters are single bytes.
- In `FortranStrings` only the conversions themselves: type tables, argument counts and platform branches of cfortran.h are preprocessor dispatch, and in-place use means the same start or a Fortran vector before it.
- FortranStrings.NumElem: does not model the 32-bit wrap-around of its unsigned counters.
