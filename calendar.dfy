/** Minute arithmetic on Gregorian wall-clock dates, standing for
    `adjusted_time = dt + timedelta(minutes=offset)`: an aware datetime plus
    a timedelta keeps its timezone and shifts the wall-clock fields, and
    raises OverflowError when the year leaves 1..9999. Seconds and smaller
    units never change the five fields read afterwards, so they are left out. */
module Calendar {
  import opened Common

  /** The fields read at lines 222-226. */
  datatype DateTime = DateTime(year: nat, month: nat, day: nat, hour: nat, minute: nat)

  const MinYear: nat := 1
  const MaxYear: nat := 9999

  predicate IsLeapYear(year: nat)
  {
    year % 4 == 0 && (year % 100 != 0 || year % 400 == 0)
  }

  function DaysInMonth(year: nat, month: nat): (days: nat)
    ensures 28 <= days <= 31
  {
    if month == 2 then (if IsLeapYear(year) then 29 else 28)
    else if month == 4 || month == 6 || month == 9 || month == 11 then 30
    else 31
  }

  /** The dates a Python datetime can hold. */
  predicate Valid(t: DateTime)
  {
    MinYear <= t.year <= MaxYear && 1 <= t.month <= 12
    && 1 <= t.day <= DaysInMonth(t.year, t.month)
    && t.hour < 24 && t.minute < 60
  }

  /** One minute later; `None` past 9999-12-31 23:59 (OverflowError). */
  function NextMinute(t: DateTime): Option<DateTime>
  {
    if t.minute < 59 then Some(t.(minute := t.minute + 1))
    else if t.hour < 23 then Some(t.(hour := t.hour + 1, minute := 0))
    else if t.day < DaysInMonth(t.year, t.month) then Some(t.(day := t.day + 1, hour := 0, minute := 0))
    else if t.month < 12 then Some(DateTime(t.year, t.month + 1, 1, 0, 0))
    else if t.year < MaxYear then Some(DateTime(t.year + 1, 1, 1, 0, 0))
    else None
  }

  /** One minute earlier; `None` before 0001-01-01 00:00 (OverflowError). */
  function PrevMinute(t: DateTime): Option<DateTime>
  {
    if t.minute > 0 then Some(t.(minute := t.minute - 1))
    else if t.hour > 0 then Some(t.(hour := t.hour - 1, minute := 59))
    else if t.day > 1 then Some(t.(day := t.day - 1, hour := 23, minute := 59))
    else if t.month > 1 then Some(DateTime(t.year, t.month - 1, DaysInMonth(t.year, t.month - 1), 23, 59))
    else if t.year > MinYear then Some(DateTime(t.year - 1, 12, 31, 23, 59))
    else None
  }

  /** Stepping forward stays valid, moves the year by at most one, and is
      undone by stepping back. */
  lemma NextMinuteStep(t: DateTime)
    requires Valid(t)
    ensures NextMinute(t).None? <==> t == DateTime(MaxYear, 12, 31, 23, 59)
    ensures NextMinute(t).Some? ==>
      Valid(NextMinute(t).value) && PrevMinute(NextMinute(t).value) == Some(t)
      && t.year <= NextMinute(t).value.year <= t.year + 1
  {
  }

  /** Stepping back stays valid, moves the year by at most one, and is
      undone by stepping forward. */
  lemma PrevMinuteStep(t: DateTime)
    requires Valid(t)
    ensures PrevMinute(t).None? <==> t == DateTime(MinYear, 1, 1, 0, 0)
    ensures PrevMinute(t).Some? ==>
      Valid(PrevMinute(t).value) && NextMinute(PrevMinute(t).value) == Some(t)
      && t.year - 1 <= PrevMinute(t).value.year <= t.year
  {
  }

  /** `t + timedelta(minutes=k)`, one minute at a time; `None` when the
      result would leave the years 1..9999. */
  function AddMinutes(t: DateTime, k: int): Option<DateTime>
    decreases if k >= 0 then k else -k
  {
    if k == 0 then Some(t)
    else if k > 0 then
      match NextMinute(t)
      case None => None
      case Some(u) => AddMinutes(u, k - 1)
    else
      match PrevMinute(t)
      case None => None
      case Some(u) => AddMinutes(u, k + 1)
  }

  function Abs(k: int): nat
  {
    if k >= 0 then k else -k
  }

  /** Adding `k` minutes to a valid date far enough from the ends of the
      calendar succeeds, gives a valid date whose minute field is
      `(minute + k) mod 60` and whose year moved by at most `|k|`, and
      adding `-k` minutes brings it back. */
  lemma {:induction false} AddMinutesValid(t: DateTime, k: int)
    requires Valid(t)
    requires MinYear + Abs(k) <= t.year <= MaxYear - Abs(k)
    ensures AddMinutes(t, k).Some?
    ensures var u := AddMinutes(t, k).value;
      Valid(u) && u.minute == (t.minute + k) % 60
      && t.year - Abs(k) <= u.year <= t.year + Abs(k)
      && AddMinutes(u, -k) == Some(t)
    decreases Abs(k), 1
  {
    if k > 0 {
      AddMinutesForward(t, k);
    } else if k < 0 {
      AddMinutesBackward(t, k);
    }
  }

  /** The forward case of `AddMinutesValid`: one step, then `k - 1` more. */
  lemma {:induction false} AddMinutesForward(t: DateTime, k: int)
    requires Valid(t) && k > 0
    requires MinYear + k <= t.year <= MaxYear - k
    ensures AddMinutes(t, k).Some?
    ensures var u := AddMinutes(t, k).value;
      Valid(u) && u.minute == (t.minute + k) % 60
      && t.year - k <= u.year <= t.year + k
      && AddMinutes(u, -k) == Some(t)
    decreases Abs(k), 0
  {
    NextMinuteStep(t);
    var n := NextMinute(t).value;
    AddMinutesValid(n, k - 1);
    var u := AddMinutes(n, k - 1).value;
    BackOneMore(u, n, t, -(k - 1));
  }

  /** The backward case of `AddMinutesValid`: one step, then `-k - 1` more. */
  lemma {:induction false} AddMinutesBackward(t: DateTime, k: int)
    requires Valid(t) && k < 0
    requires MinYear - k <= t.year <= MaxYear + k
    ensures AddMinutes(t, k).Some?
    ensures var u := AddMinutes(t, k).value;
      Valid(u) && u.minute == (t.minute + k) % 60
      && t.year + k <= u.year <= t.year - k
      && AddMinutes(u, -k) == Some(t)
    decreases Abs(k), 0
  {
    PrevMinuteStep(t);
    var p := PrevMinute(t).value;
    AddMinutesValid(p, k + 1);
    var u := AddMinutes(p, k + 1).value;
    ForwardOneMore(u, p, t, -(k + 1));
  }

  /** If `u - j` reaches `n` and `n` is one minute after `t`, then
      `u - (j + 1)` reaches `t`. */
  lemma {:induction false} BackOneMore(u: DateTime, n: DateTime, t: DateTime, j: int)
    requires j <= 0
    requires AddMinutes(u, j) == Some(n)
    requires PrevMinute(n) == Some(t)
    ensures AddMinutes(u, j - 1) == Some(t)
    decreases -j
  {
    if j < 0 {
      var p := PrevMinute(u).value;
      BackOneMore(p, n, t, j + 1);
    }
  }

  /** If `u + j` reaches `p` and `p` is one minute before `t`, then
      `u + (j + 1)` reaches `t`. */
  lemma {:induction false} ForwardOneMore(u: DateTime, p: DateTime, t: DateTime, j: int)
    requires j >= 0
    requires AddMinutes(u, j) == Some(p)
    requires NextMinute(p) == Some(t)
    ensures AddMinutes(u, j + 1) == Some(t)
    decreases j
  {
    if j > 0 {
      var n := NextMinute(u).value;
      ForwardOneMore(n, p, t, j - 1);
    }
  }
}
