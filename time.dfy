/** Naive UTC date-times (the `DateTime` columns) and calendar dates (the `Date`
    column of the older schema), with the order the database compares them in. */
module Time {
  import Lex

  datatype DateTime = DateTime(year: int, month: int, day: int,
                               hour: int, minute: int, second: int, microsecond: int)

  datatype Date = Date(year: int, month: int, day: int)

  /** Fields in significance order; comparing keys compares the instants. */
  function Key(d: DateTime): seq<int>
  {
    [d.year, d.month, d.day, d.hour, d.minute, d.second, d.microsecond]
  }

  function DateKey(d: Date): seq<int>
  {
    [d.year, d.month, d.day]
  }

  /** `a <= b` on timestamps. */
  predicate Leq(a: DateTime, b: DateTime)
  {
    Lex.Leq(Key(a), Key(b))
  }

  /** Field ranges of a datetime value; day 31 is accepted for every month. */
  predicate Valid(d: DateTime)
  {
    && 1 <= d.month <= 12 && 1 <= d.day <= 31
    && 0 <= d.hour < 24 && 0 <= d.minute < 60 && 0 <= d.second < 60
    && 0 <= d.microsecond < 1000000
  }

  /** `datetime(now.year, now.month, 1)`: midnight on the first day of the month of `now`. */
  function MonthStart(now: DateTime): (r: DateTime)
    ensures Valid(now) ==> Valid(r) && Leq(r, now)
  {
    var r := DateTime(now.year, now.month, 1, 0, 0, 0, 0);
    if Valid(now) then
      MonthStartOrder(now, now);
      r
    else
      r
  }

  /** A timestamp is on or after the start of the month of `now` exactly when
      its calendar month is that month or a later one. */
  lemma MonthStartOrder(now: DateTime, t: DateTime)
    requires Valid(t)
    ensures Lex.Leq(Key(DateTime(now.year, now.month, 1, 0, 0, 0, 0)), Key(t))
        <==> t.year > now.year || (t.year == now.year && t.month >= now.month)
  {
    var m := Key(DateTime(now.year, now.month, 1, 0, 0, 0, 0));
    var k := Key(t);
    var mt, kt := m[1..][1..], k[1..][1..];
    assert mt == [1, 0, 0, 0, 0] && kt == [t.day, t.hour, t.minute, t.second, t.microsecond];
    assert Lex.Leq(mt, kt) by {
      if t.day == 1 {
        Lex.ZerosLeast(mt[1..], kt[1..]);
      }
    }
  }

  lemma MonthStartOnOrBefore(now: DateTime, t: DateTime)
    requires Valid(now) && Valid(t)
    ensures Leq(MonthStart(now), t) <==> t.year > now.year || (t.year == now.year && t.month >= now.month)
  {
    MonthStartOrder(now, t);
  }
}
