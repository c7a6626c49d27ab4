/** The human-readable ticket tag `TICK-` followed by the number padded
    with zeros to four digits, shared by the ticket route and the mock
    database. */
module Labels {
  import opened Values
  import opened Text

  const Prefix: string := "TICK-"
  const Width: nat := 4

  /** The tag for n: the prefix, then n's digits padded to four. */
  function DisplayId(n: nat): string {
    Prefix + PadStart(Decimal(n), Width, '0')
  }

  /** Reads a tag back into its number; None for anything that is not
      `TICK-` followed by one or more digits. */
  function ParseDisplayId(tag: string): Option<nat> {
    if |tag| > |Prefix| && tag[..|Prefix|] == Prefix && AllDigits(tag[|Prefix|..])
    then Some(ParseDecimal(tag[|Prefix|..]))
    else None
  }

  lemma DisplayIdRoundTrip(n: nat)
    ensures ParseDisplayId(DisplayId(n)) == Some(n)
  {
    var digits := Decimal(n);
    var padded := PadStart(digits, Width, '0');
    var tag := DisplayId(n);
    assert tag[..|Prefix|] == Prefix;
    assert tag[|Prefix|..] == padded;
    assert padded == Repeat('0', |padded| - |digits|) + digits;
    LeadingZerosIgnored(|padded| - |digits|, digits);
    DecimalRoundTrip(n);
  }

  /** Distinct numbers give distinct labels. */
  lemma DisplayIdInjective(n: nat, m: nat)
    ensures DisplayId(n) == DisplayId(m) ==> n == m
  {
    DisplayIdRoundTrip(n);
    DisplayIdRoundTrip(m);
  }

  /** Below 10000 a tag matches `TICK-\d{4}`. */
  lemma DisplayIdFormat(n: nat)
    requires n < 10000
    ensures |DisplayId(n)| == |Prefix| + Width
    ensures DisplayId(n)[..|Prefix|] == Prefix
    ensures AllDigits(DisplayId(n)[|Prefix|..])
  {
    assert Pow10(4) == 10000;
    DecimalLength(n, 4);
    var tag := DisplayId(n);
    assert tag[|Prefix|..] == PadStart(Decimal(n), Width, '0');
  }

  lemma FirstLabels()
    ensures DisplayId(1) == "TICK-0001"
    ensures DisplayId(100) == "TICK-0100"
  {
    assert Decimal(1) == "1";
    assert Decimal(10) == "10";
    assert Decimal(100) == Decimal(10) + ['0'];
    assert Repeat('0', 3) == "000";
    assert Repeat('0', 1) == "0";
  }
}
