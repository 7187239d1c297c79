/** PHP's `date('Y-m-d', $timestamp)` for a server running in UTC: the civil
    (proleptic Gregorian) date of a Unix timestamp, printed as year, month and
    day with leading zeros. */
module Dates {
  import Money

  datatype Civil = Civil(year: int, month: int, day: int)

  const SecondsPerDay: int := 86400

  /** The civil date `days` days after 1970-01-01 (negative: before it), by
      the era arithmetic of Howard Hinnant's `civil_from_days`. Dafny's `/` on
      a positive divisor floors, which is the division the algorithm needs. */
  function CivilFromDays(days: int): Civil {
    var z := days + 719468;
    var era := z / 146097;
    var doe := z - era * 146097;
    var yoe := (doe - doe / 1460 + doe / 36524 - doe / 146096) / 365;
    var doy := doe - (365 * yoe + yoe / 4 - yoe / 100);
    var mp := (5 * doy + 2) / 153;
    var day := doy - (153 * mp + 2) / 5 + 1;
    var month := if mp < 10 then mp + 3 else mp - 9;
    var year := yoe + era * 400 + (if month <= 2 then 1 else 0);
    Civil(year, month, day)
  }

  /** `n` in decimal, left-padded with zeros to at least `width` digits. */
  function Padded(n: nat, width: nat): (r: string)
    ensures |r| >= width && Money.AllDigits(r)
  {
    var digits := Money.NatToDecimal(n);
    if |digits| >= width then digits else seq(width - |digits|, _ => '0') + digits
  }

  /** The `Y` format: at least four digits, a minus sign before years BCE. */
  function YearText(year: int): string {
    if year < 0 then "-" + Padded(-year, 4) else Padded(year, 4)
  }

  /** A month or day as a `nat`; the civil arithmetic never gives a negative one. */
  function Natural(n: int): nat {
    if n < 0 then 0 else n
  }

  /** `date('Y-m-d', $epoch)` in UTC. */
  function DateOf(epoch: int): (r: string)
    ensures |r| >= 10
    ensures forall k :: 0 <= k < |r| ==> Money.IsDigit(r[k]) || r[k] == '-'
  {
    var c := CivilFromDays(epoch / SecondsPerDay);
    YearText(c.year) + "-" + Padded(Natural(c.month), 2) + "-" + Padded(Natural(c.day), 2)
  }

  lemma PaddedExamples()
    ensures Padded(2023, 4) == "2023" && Padded(11, 2) == "11" && Padded(14, 2) == "14"
  {
    assert Money.NatToDecimal(2023) == "2023";
    assert Money.NatToDecimal(11) == "11";
    assert Money.NatToDecimal(14) == "14";
  }

  /** Day 19675 of the epoch is 2023-11-14: era 5, day 8658 of the era,
      year 23 of the era, day 258 of the March-based year, month index 8. */
  lemma CivilExample(days: int)
    requires days == 19675
    ensures CivilFromDays(days) == Civil(2023, 11, 14)
  {
    var z := days + 719468;
    assert z / 146097 == 5;
    var doe := z - 5 * 146097;
    assert doe == 8658;
    assert doe / 1460 == 5 && doe / 36524 == 0 && doe / 146096 == 0;
    assert 8653 / 365 == 23;
    assert (5 * 258 + 2) / 153 == 8;
    assert (153 * 8 + 2) / 5 == 245;
  }

  /** The Unix time 1700000000 falls on 14 November 2023 (UTC). */
  lemma DateOfExample()
    ensures DateOf(1700000000) == "2023-11-14"
  {
    assert 1700000000 / SecondsPerDay == 19675;
    CivilExample(19675);
    PaddedExamples();
  }
}
