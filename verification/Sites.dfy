/** Site codes: the SUNUM ranges that `seed_sums` hands to a site, and the
    decoding of a SUNUM into the code of the site that owns it. */
module Sites {

  const SITE_SPAN := 0x1_0000_0000_0000        // 1 << 48
  const WORD := 0x1_0000_0000_0000_0000        // values of an unsigned 64-bit integer
  const MAX_SEED := 32767
  const MAX_CODE := 16383

  datatype Range = Range(min: int, max: int) {
    ghost predicate Contains(sunum: int) {
      min <= sunum <= max
    }
  }

  datatype Result<T> = Ok(value: T) | Invalid

  /** The sequence bounds printed for a site code.  The program computes them in
      unsigned 64-bit arithmetic and rejects codes above 32767. */
  function SeedRange(code: nat): (r: Result<Range>)
  {
    if code > MAX_SEED then Invalid
    else
      var siteMin := code * SITE_SPAN % WORD;
      Ok(Range(siteMin, (siteMin + SITE_SPAN - 1) % WORD))
  }

  /** Python's `code & 0xC000`, on an integer of any size and sign: bits 14 and 15
      of the two's complement representation. */
  function HighBits(code: int): int
  {
    code / 0x4000 % 4
  }

  /** `SiteTable.getCode`: Python's `>>` rounds down, as `/` does here. */
  function GetCode(sunum: int): Result<int>
  {
    var code := sunum / SITE_SPAN;
    if HighBits(code) != 0 then Invalid else Ok(code)
  }

  ghost predicate Signed64(sunum: int) {
    -WORD / 2 <= sunum < WORD / 2
  }

  /** No bound wraps around, so the printed range really has 2^48 members. */
  lemma SeedRangeExact(code: nat)
    requires code <= MAX_SEED
    ensures SeedRange(code) == Ok(Range(code * SITE_SPAN, (code + 1) * SITE_SPAN - 1)) && SITE_SPAN == 281474976710656
    ensures 0 <= SeedRange(code).value.min <= SeedRange(code).value.max < WORD / 2
  {
  }

  lemma RangeIsQuotient(code: nat, sunum: int)
    requires code <= MAX_SEED
    ensures SeedRange(code).value.Contains(sunum) <==> sunum / SITE_SPAN == code
  {
    SeedRangeExact(code);
  }

  /** The two programs agree on a site exactly when its code is at most 16383:
      a site seeded with a larger code, which `seed_sums` accepts, owns only
      SUNUMs that the daemon rejects. */
  lemma SeedAndDecodeAgree(code: nat, sunum: int)
    requires code <= MAX_SEED
    requires SeedRange(code).value.Contains(sunum)
    ensures GetCode(sunum) == Ok(code) <==> code <= 16383
    ensures GetCode(sunum) == Invalid <==> code > 16383
  {
    RangeIsQuotient(code, sunum);
  }

  /** The ranges of the codes 0..32767 are disjoint and cover the non-negative
      signed 64-bit integers, and nothing else. */
  lemma RangesTile(sunum: int)
    ensures 0 <= sunum < 0x8000_0000_0000_0000 <==>
            exists code: nat :: code <= MAX_SEED && SeedRange(code).value.Contains(sunum)
    ensures forall c: nat, d: nat ::
              (c <= MAX_SEED && d <= MAX_SEED && SeedRange(c).value.Contains(sunum)
               && SeedRange(d).value.Contains(sunum)) ==> c == d
  {
    forall c: nat | c <= MAX_SEED
      ensures SeedRange(c).value.Contains(sunum) <==> sunum / SITE_SPAN == c
    {
      RangeIsQuotient(c, sunum);
    }
    if 0 <= sunum < WORD / 2 {
      var code: nat := sunum / SITE_SPAN;
      assert code <= MAX_SEED && SeedRange(code).value.Contains(sunum);
    }
  }

  /** Decoding accepts a signed 64-bit SUNUM exactly when its code is in 0..16383. */
  lemma GetCodeAccepts(sunum: int)
    requires Signed64(sunum)
    ensures GetCode(sunum).Ok? <==> 0 <= sunum < 0x4000_0000_0000_0000
    ensures GetCode(sunum).Ok? ==> 0 <= GetCode(sunum).value <= 16383
    ensures GetCode(sunum).Ok? ==> GetCode(sunum).value * 0x1_0000_0000_0000 <= sunum
                                   < (GetCode(sunum).value + 1) * 0x1_0000_0000_0000
    ensures GetCode(sunum).Ok? ==> SeedRange(GetCode(sunum).value).value.Contains(sunum)
  {
    var code := sunum / SITE_SPAN;
    assert -0x8000 <= code < 0x8000;
    if 0 <= code {
      RangeIsQuotient(code, sunum);
    }
  }

  /** Python integers are unbounded, and the mask only looks at two bits: without
      the 64-bit bound, acceptance is a property of the code modulo 65536, and the
      code returned may lie far outside 0..16383. */
  lemma GetCodeOnAnyInteger(sunum: int)
    ensures GetCode(sunum).Ok? <==> sunum / SITE_SPAN % 0x1_0000 <= MAX_CODE
    ensures GetCode(WORD) == Ok(0x1_0000)
  {
    var code := sunum / SITE_SPAN;
    assert code / 0x4000 % 4 == code % 0x1_0000 / 0x4000;
  }
}
