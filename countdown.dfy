/** Countdown arithmetic shared by the trip card, the tracker and the settings
    screen. Instants are whole milliseconds since the epoch; "now" is a parameter. */
module Countdown {
  import opened Seqs
  import Text

  const HourMs: int := 3600000
  const DayMs: int := 86400000

  /** Math.ceil(a / b) for a positive divisor. */
  function CeilDiv(a: int, b: int): (q: int)
    requires b > 0
    ensures b * (q - 1) < a <= b * q
  {
    -((-a) / b)
  }

  /** calculateDaysLeft: whole days left before `exit`, a started day counting as a full one. */
  function DaysLeft(exit: int, now: int): (d: int)
    ensures DayMs * (d - 1) < exit - now <= DayMs * d
  {
    CeilDiv(exit - now, DayMs)
  }

  /** The ceiling is determined by its characterisation. */
  lemma {:induction false} CeilDivUnique(a: int, b: int, q: int)
    requires b > 0 && b * (q - 1) < a <= b * q
    ensures CeilDiv(a, b) == q
  {
    var r := CeilDiv(a, b);
    if r < q {
      assert b * r <= b * (q - 1) by { MulMonotone(b, r, q - 1); }
    } else if r > q {
      assert b * q <= b * (r - 1) by { MulMonotone(b, q, r - 1); }
    }
  }

  lemma MulMonotone(b: int, x: int, y: int)
    requires b > 0 && x <= y
    ensures b * x <= b * y
  {
  }

  /** A day counts as left up to the exact instant of exit. */
  lemma DaysLeftAtBoundaries(exit: int, now: int)
    ensures 0 < exit - now <= DayMs ==> DaysLeft(exit, now) == 1
    ensures -DayMs < exit - now <= 0 ==> DaysLeft(exit, now) == 0
  {
    if 0 < exit - now <= DayMs { CeilDivUnique(exit - now, DayMs, 1); }
    if -DayMs < exit - now <= 0 { CeilDivUnique(exit - now, DayMs, 0); }
  }

  /** At most `k` days are left exactly when exit is at most `k` whole days away. */
  lemma {:induction false} DaysLeftAtMost(exit: int, now: int, k: int)
    ensures DaysLeft(exit, now) <= k <==> exit - now <= DayMs * k
  {
    var d := DaysLeft(exit, now);
    if d <= k {
      MulMonotone(DayMs, d, k);
    } else {
      MulMonotone(DayMs, k, d - 1);
    }
  }

  /** A later exit never leaves fewer days. */
  lemma DaysLeftMonotone(exit1: int, exit2: int, now: int)
    requires exit1 <= exit2
    ensures DaysLeft(exit1, now) <= DaysLeft(exit2, now)
  {
    DaysLeftAtMost(exit1, now, DaysLeft(exit2, now));
  }

  /** The trip card's exit-date highlight: one week or less to go. */
  predicate ExitDateCritical(exit: int, now: int): (b: bool)
    ensures b <==> exit - now <= 7 * DayMs
  {
    DaysLeftAtMost(exit, now, 7);
    DaysLeft(exit, now) <= 7
  }

  /** A JavaScript number as far as the progress computation can produce it. */
  datatype JsNumber = Finite(value: real) | NaN

  function Clamp(x: real): (r: real)
    ensures 0.0 <= r <= 100.0
    ensures 0.0 <= x <= 100.0 ==> r == x
  {
    if x > 100.0 then 100.0 else if x < 0.0 then 0.0 else x
  }

  /** calculateProgress: the percentage of the window [entry, exit] used up at `now`,
      clamped to 0..100. Dividing by a zero-length window gives an infinite ratio,
      which the clamp turns into 0 or 100, except at now == entry, where it is 0/0. */
  function Progress(entry: int, exit: int, now: int): (p: JsNumber)
    ensures p.NaN? <==> exit == entry && now == entry
    ensures p.Finite? ==> 0.0 <= p.value <= 100.0
    ensures exit > entry && entry <= now <= exit ==>
              p.Finite? && p.value * (exit - entry) as real == (now - entry) as real * 100.0
  {
    if exit == entry then
      if now == entry then NaN
      else if now > entry then Finite(100.0)
      else Finite(0.0)
    else
      var ratio := (now - entry) as real / (exit - entry) as real;
      assert exit > entry && entry <= now <= exit ==> 0.0 <= ratio <= 1.0;
      Finite(Clamp(ratio * 100.0))
  }

  /** For a proper window, nothing is used before it starts and all of it after it ends. */
  lemma ProgressAtEnds(entry: int, exit: int, now: int)
    requires exit > entry
    ensures now <= entry ==> Progress(entry, exit, now) == Finite(0.0)
    ensures now >= exit ==> Progress(entry, exit, now) == Finite(100.0)
  {
    var ratio := (now - entry) as real / (exit - entry) as real;
    if now <= entry {
      assert ratio <= 0.0;
    }
    if now >= exit {
      var w := (exit - entry) as real;
      var x := (now - exit) as real;
      assert (now - entry) as real == x + w;
      assert (x + w) / w == x / w + w / w;
      assert x / w >= 0.0;
      assert ratio >= 1.0;
      assert ratio * 100.0 >= 100.0;
    }
  }

  /** For a fixed proper window, progress never goes down as time passes. */
  lemma ProgressMonotone(entry: int, exit: int, now1: int, now2: int)
    requires exit > entry && now1 <= now2
    ensures Progress(entry, exit, now1).value <= Progress(entry, exit, now2).value
  {
    var w := (exit - entry) as real;
    var r1 := (now1 - entry) as real / w;
    var r2 := (now2 - entry) as real / w;
    assert r2 - r1 == (now2 - now1) as real / w;
    assert r1 * 100.0 <= r2 * 100.0;
  }

  /** getTrialDaysLeft: days left in the seven-day trial, never negative;
      a user without a trial start shows the full seven days. */
  function TrialDaysLeft(trialStart: Option<int>, now: int): (d: nat)
    ensures trialStart.None? ==> d == 7
    ensures trialStart.Some? ==> d == if DaysLeft(trialStart.value + 7 * DayMs, now) > 0
                                      then DaysLeft(trialStart.value + 7 * DayMs, now) else 0
  {
    match trialStart
    case None => 7
    case Some(start) =>
      var left := DaysLeft(start + 7 * DayMs, now);
      if left > 0 then left else 0
  }

  /** The trial is over exactly when its seventh day has fully passed, and a trial
      that has already started never shows more than seven days. */
  lemma TrialDaysLeftBounds(start: int, now: int)
    ensures TrialDaysLeft(Some(start), now) == 0 <==> now >= start + 7 * DayMs
    ensures start <= now ==> TrialDaysLeft(Some(start), now) <= 7
  {
    DaysLeftAtMost(start + 7 * DayMs, now, 0);
    DaysLeftAtMost(start + 7 * DayMs, now, 7);
  }

  /** calculateDuration in the add-trip form: "<n> days" for a window of n started
      days, and the empty string when a date is missing or the window is empty. */
  function Duration(entry: Option<int>, exit: Option<int>): (s: string)
    ensures s != [] <==> entry.Some? && exit.Some? && exit.value > entry.value
    ensures s != [] ==> s == Text.NatToString(CeilDiv(exit.value - entry.value, DayMs)) + " days"
  {
    if entry.Some? && exit.Some? then
      var days := CeilDiv(exit.value - entry.value, DayMs);
      if days > 0 then Text.NatToString(days) + " days" else ""
    else ""
  }

  /** The number the duration label shows reads back as the number of started days. */
  lemma DurationReadsBack(entry: int, exit: int)
    requires exit > entry
    ensures var s := Duration(Some(entry), Some(exit));
            |s| > 5 && Text.ParseInt(s[..|s| - 5]) == Some(CeilDiv(exit - entry, DayMs))
  {
    var days := CeilDiv(exit - entry, DayMs);
    var s := Duration(Some(entry), Some(exit));
    assert s[..|s| - 5] == Text.NatToString(days);
    Text.ParseIntOfNatToString(days);
  }
}
