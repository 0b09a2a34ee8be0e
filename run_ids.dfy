/**
 * Run identifiers and timestamps derived from a clock reading: the id is
 * `run_YYYYMMDD_HHMMSS` (second precision) and the timestamp is the ISO-8601
 * form `YYYY-MM-DDTHH:MM:SS[.ffffff]`. The clock itself is a parameter.
 */
module RunIds {
  import opened Strings

  datatype DateTime = DateTime(year: nat, month: nat, day: nat, hour: nat, minute: nat, second: nat, microsecond: nat)

  predicate ValidDateTime(t: DateTime)
  {
    && 1 <= t.year <= 9999 && 1 <= t.month <= 12 && 1 <= t.day <= 31
    && t.hour < 24 && t.minute < 60 && t.second < 60 && t.microsecond < 1000000
  }

  /** Strictly earlier, to the second (microseconds ignored, as in the id). */
  predicate EarlierSecond(a: DateTime, b: DateTime)
  {
    || a.year < b.year
    || (a.year == b.year && a.month < b.month)
    || (a.year == b.year && a.month == b.month && a.day < b.day)
    || (a.year == b.year && a.month == b.month && a.day == b.day && a.hour < b.hour)
    || (a.year == b.year && a.month == b.month && a.day == b.day && a.hour == b.hour && a.minute < b.minute)
    || (a.year == b.year && a.month == b.month && a.day == b.day && a.hour == b.hour && a.minute == b.minute && a.second < b.second)
  }

  predicate SameSecond(a: DateTime, b: DateTime)
  {
    a.year == b.year && a.month == b.month && a.day == b.day
    && a.hour == b.hour && a.minute == b.minute && a.second == b.second
  }

  function DateDigits(t: DateTime): (s: string)
    requires ValidDateTime(t)
    ensures |s| == 8
  {
    Pad(t.year, 4) + Pad(t.month, 2) + Pad(t.day, 2)
  }

  function TimeDigits(t: DateTime): (s: string)
    requires ValidDateTime(t)
    ensures |s| == 6
  {
    Pad(t.hour, 2) + Pad(t.minute, 2) + Pad(t.second, 2)
  }

  /** `generate_run_id`: `"run_" + strftime("%Y%m%d_%H%M%S")`. */
  function GenerateRunId(t: DateTime): (id: string)
    requires ValidDateTime(t)
    ensures |id| == 19 && id[..4] == "run_"
  {
    "run_" + DateDigits(t) + "_" + TimeDigits(t)
  }

  /** `datetime.isoformat()`: microseconds are written only when they are not zero. */
  function IsoTimestamp(t: DateTime): (s: string)
    requires ValidDateTime(t)
    ensures |s| == (if t.microsecond == 0 then 19 else 26)
    ensures s[4] == '-' && s[7] == '-' && s[10] == 'T' && s[13] == ':' && s[16] == ':'
  {
    Pad(t.year, 4) + "-" + Pad(t.month, 2) + "-" + Pad(t.day, 2) + "T"
    + Pad(t.hour, 2) + ":" + Pad(t.minute, 2) + ":" + Pad(t.second, 2)
    + (if t.microsecond == 0 then "" else "." + Pad(t.microsecond, 6))
  }

  /** Where each clock field sits in a run id. */
  lemma RunIdFields(t: DateTime)
    requires ValidDateTime(t)
    ensures var x := GenerateRunId(t);
      && x[4..8] == Pad(t.year, 4) && x[8..10] == Pad(t.month, 2) && x[10..12] == Pad(t.day, 2)
      && x[13..15] == Pad(t.hour, 2) && x[15..17] == Pad(t.minute, 2) && x[17..19] == Pad(t.second, 2)
  {
    var d, h := DateDigits(t), TimeDigits(t);
    var x := GenerateRunId(t);
    assert x == "run_" + d + "_" + h;
    assert x[4..12] == d;
    assert x[13..19] == h;
    assert d[..4] == Pad(t.year, 4) && d[4..6] == Pad(t.month, 2) && d[6..8] == Pad(t.day, 2);
    assert h[..2] == Pad(t.hour, 2) && h[2..4] == Pad(t.minute, 2) && h[4..6] == Pad(t.second, 2);
  }

  /** Clock readings in different seconds never produce the same run id. */
  lemma RunIdInjective(a: DateTime, b: DateTime)
    requires ValidDateTime(a) && ValidDateTime(b)
    requires GenerateRunId(a) == GenerateRunId(b)
    ensures SameSecond(a, b)
  {
    RunIdFields(a);
    RunIdFields(b);
    PadInjective(a.year, b.year, 4);
    PadInjective(a.month, b.month, 2);
    PadInjective(a.day, b.day, 2);
    PadInjective(a.hour, b.hour, 2);
    PadInjective(a.minute, b.minute, 2);
    PadInjective(a.second, b.second, 2);
  }

  /** Three fixed-width fields compare like the numbers they hold. */
  lemma {:induction false} ThreeFieldsOrder(a1: nat, a2: nat, a3: nat, b1: nat, b2: nat, b3: nat, w1: nat)
    requires a1 < Pow10(w1) && b1 < Pow10(w1) && a2 < 100 && b2 < 100 && a3 < 100 && b3 < 100
    requires a1 < b1 || (a1 == b1 && a2 < b2) || (a1 == b1 && a2 == b2 && a3 < b3)
    ensures LexLess(Pad(a1, w1) + Pad(a2, 2) + Pad(a3, 2), Pad(b1, w1) + Pad(b2, 2) + Pad(b3, 2))
  {
    var p1, q1 := Pad(a1, w1), Pad(b1, w1);
    var p2, q2 := Pad(a2, 2), Pad(b2, 2);
    var p3, q3 := Pad(a3, 2), Pad(b3, 2);
    if a1 < b1 {
      PadMonotonic(a1, b1, w1);
      LexLessAppend(p1, q1, p2 + p3, q2 + q3);
      assert p1 + p2 + p3 == p1 + (p2 + p3) && q1 + q2 + q3 == q1 + (q2 + q3);
    } else if a2 < b2 {
      PadMonotonic(a2, b2, 2);
      LexLessAppend(p2, q2, p3, q3);
      LexLessPrefix(p1, p2 + p3, q2 + q3);
      assert p1 + p2 + p3 == p1 + (p2 + p3) && q1 + q2 + q3 == p1 + (q2 + q3);
    } else {
      PadMonotonic(a3, b3, 2);
      LexLessPrefix(p1 + p2, p3, q3);
    }
  }

  predicate EarlierDate(a: DateTime, b: DateTime)
  {
    || a.year < b.year
    || (a.year == b.year && a.month < b.month)
    || (a.year == b.year && a.month == b.month && a.day < b.day)
  }

  /** The id is the prefix, the date digits, an underscore and the time digits. */
  lemma RunIdParts(t: DateTime)
    requires ValidDateTime(t)
    ensures GenerateRunId(t) == "run_" + (DateDigits(t) + ("_" + TimeDigits(t)))
  {
  }

  lemma DateDigitsOrder(a: DateTime, b: DateTime)
    requires ValidDateTime(a) && ValidDateTime(b) && EarlierDate(a, b)
    ensures LexLess(DateDigits(a), DateDigits(b))
  {
    assert Pow10(4) == 10000;
    ThreeFieldsOrder(a.year, a.month, a.day, b.year, b.month, b.day, 4);
  }

  lemma RunIdOrderByDate(a: DateTime, b: DateTime)
    requires ValidDateTime(a) && ValidDateTime(b) && EarlierDate(a, b)
    ensures LexLess(GenerateRunId(a), GenerateRunId(b))
  {
    var da, db := DateDigits(a), DateDigits(b);
    var ra, rb := "_" + TimeDigits(a), "_" + TimeDigits(b);
    DateDigitsOrder(a, b);
    LexLessAppend(da, db, ra, rb);
    LexLessPrefix("run_", da + ra, db + rb);
    RunIdParts(a);
    RunIdParts(b);
  }

  lemma RunIdOrderByTime(a: DateTime, b: DateTime)
    requires ValidDateTime(a) && ValidDateTime(b)
    requires a.year == b.year && a.month == b.month && a.day == b.day
    requires EarlierSecond(a, b)
    ensures LexLess(GenerateRunId(a), GenerateRunId(b))
  {
    var p := "run_" + DateDigits(a) + "_";
    assert DateDigits(a) == DateDigits(b);
    ThreeFieldsOrder(a.hour, a.minute, a.second, b.hour, b.minute, b.second, 2);
    LexLessPrefix(p, TimeDigits(a), TimeDigits(b));
  }

  /** Run ids sort in the order of the clock readings they were made from. */
  lemma RunIdMonotonic(a: DateTime, b: DateTime)
    requires ValidDateTime(a) && ValidDateTime(b)
    requires EarlierSecond(a, b)
    ensures LexLess(GenerateRunId(a), GenerateRunId(b))
  {
    if EarlierDate(a, b) {
      RunIdOrderByDate(a, b);
    } else {
      RunIdOrderByTime(a, b);
    }
  }
}
