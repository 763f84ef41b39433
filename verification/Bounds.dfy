/** Bound values of fixed-length string columns: numbers written in base 256. */
module StringBounds {
  import opened Arith
  import opened Numerals
  import opened Wrappers

  type byte = x: nat | x < 256

  const BASE: nat := 256

  /** normalizeValue: cut or padded with zero bytes to the column's length. */
  function Normalize(s: seq<byte>, len: nat): (r: seq<byte>)
    ensures |r| == len && (forall i :: 0 <= i < len ==> r[i] == if i < |s| then s[i] else 0)
  {
    if |s| > len then s[..len] else s + Fill(len - |s|, 0)
  }

  function Fill(n: nat, b: byte): (r: seq<byte>)
    ensures |r| == n && forall i :: 0 <= i < n ==> r[i] == b
  {
    seq(n, i => b)
  }

  /** Unsigned byte order, first difference first. */
  predicate Less(s: seq<byte>, t: seq<byte>)
    requires |s| == |t|
  {
    s != [] && (s[0] < t[0] || (s[0] == t[0] && Less(s[1..], t[1..])))
  }

  lemma {:induction false} NumFill(n: nat)
    ensures Num(BASE, Fill(n, 0)) == 0 && Num(BASE, Fill(n, 255)) == Power(BASE, n) - 1
  {
    if n > 0 {
      NumFill(n - 1);
      assert Fill(n, 0)[..n - 1] == Fill(n - 1, 0);
      assert Fill(n, 255)[..n - 1] == Fill(n - 1, 255);
    }
  }

  lemma Scale(x: int, y: int, p: int, a: int, b: int)
    requires 0 <= a < p && 0 <= b < p && x < y
    ensures x * p + a < y * p + b
  {
    assert y * p == x * p + (y - x) * p;
    assert (y - x) * p >= p by { MulMonotone(p, 1, y - x); }
  }

  /** Byte order is the order of the numbers. */
  lemma {:induction false} LessIsNumeric(s: seq<byte>, t: seq<byte>)
    requires |s| == |t|
    ensures Less(s, t) <==> Num(BASE, s) < Num(BASE, t)
    decreases |s|
  {
    if s != [] {
      var p := Power(BASE, |s| - 1);
      assert s == [s[0]] + s[1..] && t == [t[0]] + t[1..];
      NumConcat(BASE, [s[0]], s[1..]);
      NumConcat(BASE, [t[0]], t[1..]);
      NumOne(s[0]);
      NumOne(t[0]);
      NumBelow(BASE, s[1..]);
      NumBelow(BASE, t[1..]);
      if s[0] < t[0] {
        Scale(s[0], t[0], p, Num(BASE, s[1..]), Num(BASE, t[1..]));
      } else if t[0] < s[0] {
        Scale(t[0], s[0], p, Num(BASE, t[1..]), Num(BASE, s[1..]));
      } else {
        LessIsNumeric(s[1..], t[1..]);
      }
    }
  }

  lemma NumOne(b: byte)
    ensures Num(BASE, [b]) == b
  {
    assert [b][..0] == [];
  }

  /** A number determines the bytes that write it. */
  lemma {:induction false} NumInjective(s: seq<byte>, t: seq<byte>)
    requires |s| == |t| && Num(BASE, s) == Num(BASE, t)
    ensures s == t
    decreases |s|
  {
    if s != [] {
      var n := |s| - 1;
      NumInjective(s[..n], t[..n]);
      assert s == s[..n] + [s[n]] && t == t[..n] + [t[n]];
    }
  }

  lemma NumLast(s: seq<byte>, i: nat)
    requires 0 < i <= |s|
    ensures Num(BASE, s[..i]) == Num(BASE, s[..i - 1]) * 256 + s[i - 1]
  {
    assert s[..i][..i - 1] == s[..i - 1];
  }

  lemma NumSplit(s: seq<byte>, i: nat)
    requires i <= |s|
    ensures Num(BASE, s) == Num(BASE, s[..i]) * Power(BASE, |s| - i) + Num(BASE, s[i..])
  {
    assert s == s[..i] + s[i..];
    NumConcat(BASE, s[..i], s[i..]);
  }

  /** Replacing the byte before a run of equal bytes changes the number by one. */
  lemma CarryStep(before: seq<byte>, after: seq<byte>, i: nat, up: bool)
    requires |before| == |after| && 0 < i <= |before| && after[..i - 1] == before[..i - 1]
    requires before[i..] == Fill(|before| - i, if up then 255 else 0) &&
      after[i..] == Fill(|before| - i, if up then 0 else 255)
    requires after[i - 1] as int - before[i - 1] as int == if up then 1 else -1
    ensures Num(BASE, after) == Num(BASE, before) + (if up then 1 else -1)
  {
    hide Num, Power;
    NumFill(|before| - i);
    NumSplit(before, i);
    NumSplit(after, i);
    NumLast(before, i);
    NumLast(after, i);
    CarryArith(Num(BASE, before[..i]), Num(BASE, after[..i]), Power(BASE, |before| - i), if up then 1 else -1);
  }

  lemma CarryArith(x: int, y: int, p: int, d: int)
    requires y == x + d && (d == 1 || d == -1)
    ensures d == 1 ==> y * p == x * p + (p - 1) + 1
    ensures d == -1 ==> y * p + (p - 1) == x * p - 1
  {
    if d == 1 {
      assert (x + 1) * p == x * p + p;
    } else {
      assert (x - 1) * p == x * p - p;
    }
  }

  function Wrap(x: int): byte {
    if x == 256 then 0 else if x == -1 then 255 else if 0 <= x < 256 then x else 0
  }

  /** One unit up or down, carrying over runs of 255 or of 0; false when it carries past the first byte. */
  method Carry(bytes: array<byte>, up: bool) returns (ok: bool)
    modifies bytes
    ensures ok ==> Num(BASE, bytes[..]) == Num(BASE, old(bytes[..])) + (if up then 1 else -1)
    ensures !ok <==> old(bytes[..]) == Fill(bytes.Length, if up then 255 else 0)
  {
    ghost var start := bytes[..];
    var stop: byte := if up then 255 else 0;
    var i := bytes.Length;
    while i > 0
      invariant 0 <= i <= bytes.Length
      invariant bytes[..i] == start[..i]
      invariant start[i..] == Fill(bytes.Length - i, stop)
      invariant bytes[i..] == Fill(bytes.Length - i, if up then 0 else 255)
    {
      var b := bytes[i - 1];
      bytes[i - 1] := Wrap(b as int + if up then 1 else -1);
      assert b == start[i - 1] by { assert start[..i][i - 1] == start[i - 1]; }
      if b != stop {
        assert bytes[..][i..] == bytes[i..] && bytes[..][..i - 1] == bytes[..i - 1] == start[..i - 1];
        CarryStep(start, bytes[..], i, up);
        return true;
      }
      assert start[i - 1..] == [start[i - 1]] + start[i..];
      assert bytes[i - 1..] == [bytes[i - 1]] + bytes[i..];
      i := i - 1;
    }
    assert start == start[0..];
    return false;
  }

  function Min(x: int, y: int): int {
    if x < y then x else y
  }

  /** The greater-than bound: the next string of the column's length, or the last one. */
  method BoundWithGT(s: seq<byte>, typeLength: Option<nat>) returns (r: Option<seq<byte>>)
    ensures r.None? <==> typeLength.None?
    ensures r.Some? ==> IsUp(Normalize(s, typeLength.value), r.value)
  {
    if typeLength.None? {
      return None;
    }
    var len := typeLength.value;
    var bytes := Resized(s, len);
    NumFill(len);
    NumBelow(BASE, Normalize(s, len));
    var ok := Carry(bytes, true);
    if !ok {
      return Some(Fill(len, 255));
    }
    NumBelow(BASE, bytes[..]);
    r := Some(bytes[..]);
  }

  /** The less-than bound: the string before, or the first one. */
  method BoundWithLT(s: seq<byte>, typeLength: Option<nat>) returns (r: Option<seq<byte>>)
    ensures r.None? <==> typeLength.None?
    ensures r.Some? ==> IsDown(Normalize(s, typeLength.value), r.value)
  {
    if typeLength.None? {
      return None;
    }
    var len := typeLength.value;
    var bytes := Resized(s, len);
    NumFill(len);
    var ok := Carry(bytes, false);
    if !ok {
      return Some(Fill(len, 0));
    }
    r := Some(bytes[..]);
  }

  method Resized(s: seq<byte>, len: nat) returns (bytes: array<byte>)
    ensures fresh(bytes) && bytes[..] == Normalize(s, len)
  {
    bytes := new byte[len](i => 0);
    for i := 0 to len
      invariant forall j :: 0 <= j < i ==> bytes[j] == Normalize(s, len)[j]
    {
      bytes[i] := if i < |s| then s[i] else 0;
    }
  }

  /** `up` is the greater-than bound of `s` among the strings of its length. */
  ghost predicate IsUp(s: seq<byte>, up: seq<byte>) {
    |up| == |s| && Num(BASE, up) == Min(Num(BASE, s) + 1, Power(BASE, |s|) - 1)
  }

  /** `down` is the less-than bound of `s` among the strings of its length. */
  ghost predicate IsDown(s: seq<byte>, down: seq<byte>) {
    |down| == |s| && Num(BASE, down) == if Num(BASE, s) == 0 then 0 else Num(BASE, s) - 1
  }

  /** Up and then down comes back except from the last string, down and then up except from the first. */
  lemma BoundsInverse(s: seq<byte>, there: seq<byte>, back: seq<byte>)
    ensures IsUp(s, there) && IsDown(there, back) ==> (back == s <==> (s != Fill(|s|, 255) || s == []))
    ensures IsDown(s, there) && IsUp(there, back) ==> (back == s <==> (s != Fill(|s|, 0) || s == []))
  {
    hide Num, Power;
    if |back| == |there| == |s| {
      NumFill(|s|);
      NumBelow(BASE, s);
      PowerLarge(|s|);
      if Num(BASE, s) == Power(BASE, |s|) - 1 {
        NumInjective(s, Fill(|s|, 255));
      }
      if Num(BASE, s) == 0 {
        NumInjective(s, Fill(|s|, 0));
      }
      if Num(BASE, back) == Num(BASE, s) {
        NumInjective(back, s);
      }
    }
  }

  lemma PowerLarge(n: nat)
    ensures if n == 0 then Power(BASE, n) == 1 else Power(BASE, n) >= 256
  {
    if n > 0 {
      MulMonotone(256, 1, Power(BASE, n - 1));
    }
  }

  /** No string of the column's length lies strictly between a value and its greater-than bound. */
  lemma BoundIsNext(s: seq<byte>, up: seq<byte>, t: seq<byte>)
    requires IsUp(s, up) && |t| == |s|
    ensures !(Less(s, t) && Less(t, up))
    ensures Less(s, t) ==> t == up || Less(up, t)
  {
    LessIsNumeric(s, t);
    LessIsNumeric(t, up);
    LessIsNumeric(up, t);
    NumBelow(BASE, t);
    if Num(BASE, t) == Num(BASE, up) {
      NumInjective(t, up);
    }
  }

  /** Nor between a value and its less-than bound. */
  lemma BoundIsPrevious(s: seq<byte>, down: seq<byte>, t: seq<byte>)
    requires IsDown(s, down) && |t| == |s|
    ensures !(Less(down, t) && Less(t, s))
    ensures Less(t, s) ==> t == down || Less(t, down)
  {
    LessIsNumeric(t, s);
    LessIsNumeric(t, down);
    LessIsNumeric(down, t);
    if Num(BASE, t) == Num(BASE, down) {
      NumInjective(t, down);
    }
  }
}

/** Bound values of dates and times. Fields are plain integers; the time zone is ignored. */
module TimeBounds {
  const INT16_MAX := 32767
  const INT32_MAX := 2147483647

  datatype Date = Date(year: int, month: int, day: int)
  datatype Time = Time(hour: int, minute: int, sec: int, microsec: int)
  datatype DateTime = DateTime(date: Date, time: Time)

  const FIRST_DATE := Date(0, 1, 1)
  const FIRST_TIME := Time(0, 0, 0, 0)

  predicate DateLess(a: Date, b: Date) {
    a.year < b.year || (a.year == b.year && (a.month < b.month || (a.month == b.month && a.day < b.day)))
  }

  predicate TimeLess(a: Time, b: Time) {
    a.hour < b.hour || (a.hour == b.hour && (a.minute < b.minute || (a.minute == b.minute &&
      (a.sec < b.sec || (a.sec == b.sec && a.microsec < b.microsec)))))
  }

  predicate DateTimeLess(a: DateTime, b: DateTime) {
    DateLess(a.date, b.date) || (a.date == b.date && TimeLess(a.time, b.time))
  }

  // Fields that run from 1 to their top, and the number of units since the first value.

  predicate DateInRange(d: Date) {
    d.year <= INT16_MAX && 1 <= d.month <= 12 && 1 <= d.day <= 31
  }

  predicate TimeInRange(t: Time) {
    1 <= t.hour <= 24 && 1 <= t.minute <= 60 && 1 <= t.sec <= 60 && 1 <= t.microsec <= INT32_MAX
  }

  /** The times a column can hold: the fields run from 0. */
  predicate TimeValue(t: Time) {
    0 <= t.hour <= 24 && 0 <= t.minute <= 60 && 0 <= t.sec <= 60 && 0 <= t.microsec <= INT32_MAX
  }

  predicate DateTimeValue(dt: DateTime) {
    DateInRange(dt.date) && TimeValue(dt.time)
  }

  function DateRank(d: Date): int {
    (d.year * 12 + (d.month - 1)) * 31 + (d.day - 1)
  }

  function TimeRank(t: Time): int {
    (((t.hour - 1) * 60 + (t.minute - 1)) * 60 + (t.sec - 1)) * INT32_MAX + (t.microsec - 1)
  }

  /** The time with its last fields raised to 1, up to the first from behind that is above 1. */
  function Raised(t: Time): Time {
    if t.microsec > 1 then t
    else if t.sec > 1 then t.(microsec := 1)
    else if t.minute > 1 then t.(sec := 1, microsec := 1)
    else if t.hour > 1 then t.(minute := 1, sec := 1, microsec := 1)
    else Time(1, 1, 1, 1)
  }

  /** The same fields are all 0. */
  predicate Zeros(t: Time) {
    || t.microsec > 1
    || (t.microsec == 0 && (t.sec > 1 || (t.sec == 0 && (t.minute > 1 || (t.minute == 0 && t.hour != 1)))))
  }

  /** The field that the greater-than bound counts up. */
  function Counted(t: Time): int {
    if t.microsec < INT32_MAX then t.microsec
    else if t.sec < 60 then t.sec
    else if t.minute < 60 then t.minute
    else t.hour
  }

  const TIMES_PER_DAY := 24 * 60 * 60 * INT32_MAX

  function DateTimeRank(dt: DateTime): int {
    DateRank(dt.date) * TIMES_PER_DAY + TimeRank(dt.time)
  }

  // Whether a bound stays where it is.

  predicate DateAtTop(d: Date) {
    d.year >= INT16_MAX && d.month >= 12 && d.day >= 31
  }

  predicate DateAtBottom(d: Date) {
    d.year <= 1 && d.month <= 1 && d.day <= 1
  }

  predicate TimeAtTop(t: Time) {
    t.hour >= 24 && t.minute >= 60 && t.sec >= 60 && t.microsec >= INT32_MAX
  }

  predicate TimeAtBottom(t: Time) {
    t.hour <= 1 && t.minute <= 1 && t.sec <= 1 && t.microsec <= 1
  }

  /** The greater-than bound of a date never moves down, stays only at the top, and is one day on. */
  function DateAfter(d: Date): (r: Date)
    ensures r == d || DateLess(d, r)
    ensures r == d <==> DateAtTop(d)
    ensures DateInRange(d) && !DateAtTop(d) ==> DateInRange(r) && DateRank(r) == DateRank(d) + 1
  {
    if d == Date(INT16_MAX, 12, 31) then d
    else if d == FIRST_DATE then Date(0, 1, 2)
    else if d.day < 31 then d.(day := d.day + 1)
    else if d.month < 12 then Date(d.year, d.month + 1, 1)
    else if d.year < INT16_MAX then Date(d.year + 1, 1, 1)
    else d
  }

  /** The less-than bound of a date. It stays on the first of January of every year up to 1. */
  function DateBefore(d: Date): (r: Date)
    ensures r == d || DateLess(r, d)
    ensures r == d <==> DateAtBottom(d)
    ensures DateInRange(d) && !DateAtBottom(d) ==> DateInRange(r) && DateRank(r) == DateRank(d) - 1
  {
    if d == FIRST_DATE then d
    else if d.day > 1 then d.(day := d.day - 1)
    else if d.month > 1 then Date(d.year, d.month - 1, 31)
    else if d.year > 1 then Date(d.year - 1, 12, 31)
    else d
  }

  function TimeAfter(t: Time): (r: Time)
    ensures r == t || TimeLess(t, r)
    ensures r == t <==> TimeAtTop(t)
    ensures TimeInRange(t) ==> TimeInRange(r)
    ensures TimeValue(t) ==> TimeValue(r) && (!TimeAtTop(t) ==> TimeRank(r) == TimeRank(t) + 1)
  {
    if t.microsec < INT32_MAX then t.(microsec := t.microsec + 1)
    else if t.sec < 60 then Time(t.hour, t.minute, t.sec + 1, 1)
    else if t.minute < 60 then Time(t.hour, t.minute + 1, 1, 1)
    else if t.hour < 24 then Time(t.hour + 1, 1, 1, 1)
    else t
  }

  function TimeBefore(t: Time): (r: Time)
    ensures r == t || TimeLess(r, t)
    ensures r == t <==> TimeAtBottom(t)
    ensures TimeInRange(t) ==> TimeInRange(r)
    ensures TimeValue(t) ==> TimeValue(r) && (!TimeAtBottom(t) ==> TimeRank(r) == TimeRank(Raised(t)) - 1)
  {
    if t == FIRST_TIME then t
    else if t.microsec > 1 then t.(microsec := t.microsec - 1)
    else if t.sec > 1 then Time(t.hour, t.minute, t.sec - 1, INT32_MAX)
    else if t.minute > 1 then Time(t.hour, t.minute - 1, 60, INT32_MAX)
    else if t.hour > 1 then Time(t.hour - 1, 60, 60, INT32_MAX)
    else t
  }

  predicate DateTimeInRange(dt: DateTime) {
    DateInRange(dt.date) && TimeInRange(dt.time)
  }

  function DateTimeAfter(dt: DateTime): (r: DateTime)
    ensures r == dt || DateTimeLess(dt, r)
    ensures r == dt <==> TimeAtTop(dt.time) && DateAtTop(dt.date)
    ensures DateTimeInRange(dt) ==> DateTimeInRange(r)
    ensures DateTimeValue(dt) ==> DateTimeValue(r) && (r != dt ==> DateTimeRank(r) == DateTimeRank(dt) + 1)
  {
    var d, t := dt.date, dt.time;
    if t.microsec < INT32_MAX then DateTime(d, t.(microsec := t.microsec + 1))
    else if t.sec < 60 then DateTime(d, Time(t.hour, t.minute, t.sec + 1, 1))
    else if t.minute < 60 then DateTime(d, Time(t.hour, t.minute + 1, 1, 1))
    else if t.hour < 24 then DateTime(d, Time(t.hour + 1, 1, 1, 1))
    else if d.day < 31 then DateTime(d.(day := d.day + 1), Time(1, 1, 1, 1))
    else if d.month < 12 then DateTime(Date(d.year, d.month + 1, 1), Time(1, 1, 1, 1))
    else if d.year < INT16_MAX then DateTime(Date(d.year + 1, 1, 1), Time(1, 1, 1, 1))
    else dt
  }

  function DateTimeBefore(dt: DateTime): (r: DateTime)
    ensures r == dt || DateTimeLess(r, dt)
    ensures r == dt <==> TimeAtBottom(dt.time) && DateAtBottom(dt.date)
    ensures DateTimeInRange(dt) ==> DateTimeInRange(r)
    ensures DateTimeValue(dt) ==>
      DateTimeValue(r) && (r != dt ==> DateTimeRank(r) == DateTimeRank(DateTime(dt.date, Raised(dt.time))) - 1)
  {
    var d, t := dt.date, dt.time;
    if dt == DateTime(FIRST_DATE, FIRST_TIME) then dt
    else if t.microsec > 1 then DateTime(d, t.(microsec := t.microsec - 1))
    else if t.sec > 1 then DateTime(d, Time(t.hour, t.minute, t.sec - 1, INT32_MAX))
    else if t.minute > 1 then DateTime(d, Time(t.hour, t.minute - 1, 60, INT32_MAX))
    else if t.hour > 1 then DateTime(d, Time(t.hour - 1, 60, 60, INT32_MAX))
    else if d.day > 1 then DateTime(d.(day := d.day - 1), Time(24, 60, 60, INT32_MAX))
    else if d.month > 1 then DateTime(Date(d.year, d.month - 1, 31), Time(24, 60, 60, INT32_MAX))
    else if d.year > 1 then DateTime(Date(d.year - 1, 12, 31), Time(24, 60, 60, INT32_MAX))
    else dt
  }

  /** Up and down again returns a date except at the top and at the last day of a year before 1. */
  lemma DateUpDown(d: Date)
    requires DateInRange(d)
    ensures DateBefore(DateAfter(d)) == d <==> !DateAtTop(d) && !(d.year < 1 && d.month == 12 && d.day == 31)
    ensures DateAfter(DateBefore(d)) == d <==> !DateAtBottom(d)
  {
    hide DateRank, DateLess;
  }

  /** Up and down again returns a time exactly when the field counted up was not 0, and down and up
      again exactly when no field borrowed from was 0. */
  lemma TimeUpDown(t: Time)
    requires TimeValue(t)
    ensures TimeBefore(TimeAfter(t)) == t <==> !TimeAtTop(t) && Counted(t) >= 1
    ensures TimeAfter(TimeBefore(t)) == t <==> !TimeAtBottom(t) && Raised(t) == t
  {
    hide TimeRank, TimeLess;
  }

  lemma DateTimeUpDown(dt: DateTime)
    requires DateTimeValue(dt)
    ensures DateTimeBefore(DateTimeAfter(dt)) == dt <==>
            && DateTimeAfter(dt) != dt && (TimeAtTop(dt.time) || Counted(dt.time) >= 1)
            && !(dt.date.year < 1 && dt.date.month == 12 && dt.date.day == 31 && TimeAtTop(dt.time))
    ensures DateTimeAfter(DateTimeBefore(dt)) == dt <==> DateTimeBefore(dt) != dt && Raised(dt.time) == dt.time
  {
    hide DateRank, DateLess, TimeRank, TimeLess, DateTimeLess, DateTimeRank;
  }

  // ---- Nothing is skipped ----

  predicate TimeBetween(a: Time, u: Time, b: Time) {
    TimeLess(a, u) && TimeLess(u, b)
  }

  predicate DateTimeBetween(a: DateTime, u: DateTime, b: DateTime) {
    DateTimeLess(a, u) && DateTimeLess(u, b)
  }

  /** Between a time and its bounds there is no time whose fields are all at least 1. */
  lemma TimeBoundsAreNext(t: Time, u: Time)
    requires TimeValue(t) && TimeInRange(u)
    ensures !TimeBetween(t, u, TimeAfter(t)) && !TimeBetween(TimeBefore(t), u, t)
  {
    hide TimeRank;
  }

  /** The greater-than bound skips a time with a field of 0 exactly when it counts past the last microsecond. */
  lemma TimeAfterSkips(t: Time)
    requires TimeValue(t)
    ensures (exists u :: TimeValue(u) && TimeBetween(t, u, TimeAfter(t))) <==> t.microsec == INT32_MAX && !TimeAtTop(t)
  {
    hide TimeRank;
    var u := TimeAfter(t).(microsec := 0);
    if t.microsec == INT32_MAX && !TimeAtTop(t) {
      assert TimeValue(u) && TimeBetween(t, u, TimeAfter(t));
    }
  }

  /** The less-than bound skips a time with a field of 0 exactly when it borrows from fields that are not all 0. */
  lemma TimeBeforeSkips(t: Time)
    requires TimeValue(t)
    ensures (exists u :: TimeValue(u) && TimeBetween(TimeBefore(t), u, t)) <==> !TimeAtBottom(t) && !Zeros(t)
  {
    hide TimeRank;
    if !TimeAtBottom(t) && !Zeros(t) {
      var u := Lowered(t);
      assert TimeValue(u) && TimeBetween(TimeBefore(t), u, t);
    }
  }

  /** The time with the fields that are borrowed from set to 0. */
  function Lowered(t: Time): Time {
    if t.microsec > 1 then t
    else if t.sec > 1 then t.(microsec := 0)
    else if t.minute > 1 then t.(sec := 0, microsec := 0)
    else if t.hour > 1 then t.(minute := 0, sec := 0, microsec := 0)
    else FIRST_TIME
  }

  /** The bounds of a datetime are those of its time, or, at the ends of a day, those of its date. */
  lemma DateTimeParts(dt: DateTime)
    requires DateTimeValue(dt)
    ensures DateTimeAfter(dt) ==
            if !TimeAtTop(dt.time) then DateTime(dt.date, TimeAfter(dt.time))
            else if !DateAtTop(dt.date) then DateTime(DateAfter(dt.date), Time(1, 1, 1, 1)) else dt
    ensures DateTimeBefore(dt) ==
            if !TimeAtBottom(dt.time) then DateTime(dt.date, TimeBefore(dt.time))
            else if !DateAtBottom(dt.date) then DateTime(DateBefore(dt.date), Time(24, 60, 60, INT32_MAX)) else dt
  {
    hide DateRank, DateLess, TimeRank, TimeLess, DateTimeLess, DateTimeRank;
  }

  /** No date lies between a date and its bounds. */
  lemma DateBoundsAreNext(d: Date, u: Date)
    requires DateInRange(d) && DateInRange(u)
    ensures !(DateLess(d, u) && DateLess(u, DateAfter(d))) && !(DateLess(DateBefore(d), u) && DateLess(u, d))
  {
    hide DateRank;
  }

  lemma DateTimeBoundsAreNext(dt: DateTime, u: DateTime)
    requires DateTimeValue(dt) && DateTimeInRange(u)
    ensures !DateTimeBetween(dt, u, DateTimeAfter(dt)) && !DateTimeBetween(DateTimeBefore(dt), u, dt)
  {
    hide DateRank, TimeRank, DateTimeRank, DateTimeAfter, DateTimeBefore, TimeAfter, TimeBefore, DateAfter, DateBefore;
    DateTimeParts(dt);
    TimeBoundsAreNext(dt.time, u.time);
    DateBoundsAreNext(dt.date, u.date);
  }

  lemma DateTimeAfterSkips(dt: DateTime)
    requires DateTimeValue(dt)
    ensures (exists u :: DateTimeValue(u) && DateTimeBetween(dt, u, DateTimeAfter(dt))) <==>
            dt.time.microsec == INT32_MAX && DateTimeAfter(dt) != dt
  {
    hide DateRank, TimeRank, DateTimeRank;
    DateTimeParts(dt);
    if dt.time.microsec == INT32_MAX && DateTimeAfter(dt) != dt {
      var r := DateTimeAfter(dt);
      var u := r.(time := r.time.(microsec := 0));
      assert DateTimeValue(u) && DateTimeBetween(dt, u, r);
    }
  }

  lemma DateTimeBeforeSkips(dt: DateTime)
    requires DateTimeValue(dt)
    ensures (exists u :: DateTimeValue(u) && DateTimeBetween(DateTimeBefore(dt), u, dt)) <==>
            DateTimeBefore(dt) != dt && !Zeros(dt.time)
  {
    hide DateRank, TimeRank, DateTimeRank;
    DateTimeParts(dt);
    if DateTimeBefore(dt) != dt && !Zeros(dt.time) {
      var u := dt.(time := Lowered(dt.time));
      assert DateTimeValue(u) && DateTimeBetween(DateTimeBefore(dt), u, dt);
    }
  }

  lemma TimeRankIsOrder(a: Time, b: Time)
    requires TimeInRange(a) && TimeInRange(b)
    ensures TimeLess(a, b) <==> TimeRank(a) < TimeRank(b)
    ensures 0 <= TimeRank(a) < TIMES_PER_DAY && (TimeRank(a) == TimeRank(b) ==> a == b)
  {
  }

  lemma DateRankIsOrder(a: Date, b: Date)
    requires DateInRange(a) && DateInRange(b)
    ensures DateLess(a, b) <==> DateRank(a) < DateRank(b)
    ensures DateRank(a) == DateRank(b) ==> a == b
  {
  }

  /** The ranks follow the order of the fields. */
  lemma RankIsOrder(a: DateTime, b: DateTime)
    requires DateTimeInRange(a) && DateTimeInRange(b)
    ensures DateTimeLess(a, b) <==> DateTimeRank(a) < DateTimeRank(b)
  {
    hide TimeLess, DateLess, TimeRank, DateRank, TimeInRange, DateInRange;
    DateRankIsOrder(a.date, b.date);
    DateRankIsOrder(b.date, a.date);
    TimeRankIsOrder(a.time, b.time);
    TimeRankIsOrder(b.time, a.time);
  }
}
