/** The alert scheduler: for a trip's exit instant, the alerts to register at 09:00
    on a fixed list of days before exit, keeping only those still in the future.
    The web client uses the ladder 14, 7, 3, 1, 0 days; the native client 14, 7, 3, 1.
    Local time is taken to be UTC (no time zone, no daylight saving). */
module Alerts {
  import opened Countdown

  /** One rung of a ladder: how many days before exit, and what the alert says. */
  datatype AlertSpec = AlertSpec(days: nat, title: string, body: string)

  /** An alert handed to the platform: when it fires and what it says. */
  datatype Alert = Alert(trigger: int, title: string, body: string)

  const Warning: string := "\U{26A0}\U{FE0F}"
  const Siren: string := "\U{1F6A8}"

  /** The web client's ladder (App.js scheduleNotifications). */
  function WebLadder(country: string): (r: seq<AlertSpec>)
    ensures |r| == 5
    ensures forall i :: 0 <= i < |r| ==> r[i].days == [14, 7, 3, 1, 0][i] && r[i].title == "VisaFlow Alert"
    ensures forall i :: 0 <= i < |r| ==>
              |r[i].body| >= |country| + 3 && r[i].body[|r[i].body| - |country| - 3..] == " - " + country
  {
    [ AlertSpec(14, "VisaFlow Alert", "Visa Expires in 14 Days - " + country),
      AlertSpec(7, "VisaFlow Alert", Warning + " Visa Expires in 1 Week - " + country),
      AlertSpec(3, "VisaFlow Alert", Siren + " URGENT: Visa Expires in 3 Days - " + country),
      AlertSpec(1, "VisaFlow Alert", Siren + " CRITICAL: Visa Expires Tomorrow - " + country),
      AlertSpec(0, "VisaFlow Alert", Siren + " YOUR VISA EXPIRES TODAY - " + country) ]
  }

  /** The native client's ladder (AppContext.js scheduleNotifications). */
  function NativeLadder(country: string): (r: seq<AlertSpec>)
    ensures |r| == 4
    ensures forall i :: 0 <= i < |r| ==> r[i].days == [14, 7, 3, 1][i]
    ensures forall i :: 0 <= i < |r| ==>
              |r[i].body| > |country| + 14 && r[i].body[..|country| + 14] == "Your visa for " + country
  {
    [ AlertSpec(14, "Visa Alert", "Your visa for " + country + " expires in 14 days"),
      AlertSpec(7, Warning + " Visa Warning", "Your visa for " + country + " expires in 1 week"),
      AlertSpec(3, Siren + " URGENT", "Your visa for " + country + " expires in 3 days"),
      AlertSpec(1, Siren + " CRITICAL", "Your visa for " + country + " expires TOMORROW") ]
  }

  /** Midnight at the start of the day holding `t`. */
  function DayStart(t: int): (m: int)
    ensures m <= t < m + DayMs && m % DayMs == 0
  {
    (t / DayMs) * DayMs
  }

  /** setDate(getDate() - days) followed by setHours(9, 0, 0, 0): 09:00 on the day
      `days` days before the day of `exit`. */
  function TriggerTime(exit: int, days: nat): (t: int)
    ensures t % DayMs == 9 * HourMs
    ensures t / DayMs == exit / DayMs - days
  {
    DayStart(exit) - days * DayMs + 9 * HourMs
  }

  /** The alerts of `ladder` whose trigger is strictly after `now`, in ladder order. */
  function Pending(exit: int, now: int, ladder: seq<AlertSpec>): (r: seq<Alert>)
    ensures |r| <= |ladder|
    ensures forall i :: 0 <= i < |r| ==> r[i].trigger > now
  {
    if ladder == [] then []
    else
      var last := ladder[|ladder| - 1];
      var t := TriggerTime(exit, last.days);
      Pending(exit, now, ladder[..|ladder| - 1]) +
        (if t > now then [Alert(t, last.title, last.body)] else [])
  }

  /** scheduleNotifications: nothing without permission; otherwise one alert per rung
      of the ladder whose 09:00 trigger has not passed yet. Past triggers are dropped. */
  method Schedule(exit: int, now: int, granted: bool, ladder: seq<AlertSpec>) returns (alerts: seq<Alert>)
    ensures !granted ==> alerts == []
    ensures granted ==> alerts == Pending(exit, now, ladder)
  {
    alerts := [];
    if !granted {
      return;
    }
    for i := 0 to |ladder|
      invariant alerts == Pending(exit, now, ladder[..i])
    {
      var spec := ladder[i];
      var trigger := TriggerTime(exit, spec.days);
      if trigger > now {
        alerts := alerts + [Alert(trigger, spec.title, spec.body)];
      }
      assert ladder[..i + 1][..i] == ladder[..i];
    }
    assert ladder[..|ladder|] == ladder;
  }

  /** Every pending alert comes from a rung of the ladder, at that rung's trigger time. */
  lemma {:induction false} PendingSound(exit: int, now: int, ladder: seq<AlertSpec>, k: nat)
    requires k < |Pending(exit, now, ladder)|
    ensures exists j :: 0 <= j < |ladder| &&
              Pending(exit, now, ladder)[k] ==
                Alert(TriggerTime(exit, ladder[j].days), ladder[j].title, ladder[j].body)
  {
    var init := ladder[..|ladder| - 1];
    var p := Pending(exit, now, init);
    if k < |p| {
      PendingSound(exit, now, init, k);
      var j :| 0 <= j < |init| && p[k] == Alert(TriggerTime(exit, init[j].days), init[j].title, init[j].body);
      assert ladder[j] == init[j];
    } else {
      assert Pending(exit, now, ladder)[k] ==
        Alert(TriggerTime(exit, ladder[|ladder| - 1].days), ladder[|ladder| - 1].title, ladder[|ladder| - 1].body);
    }
  }

  /** Every rung whose trigger is still in the future yields an alert. */
  lemma {:induction false} PendingComplete(exit: int, now: int, ladder: seq<AlertSpec>, j: nat)
    requires j < |ladder| && TriggerTime(exit, ladder[j].days) > now
    ensures Alert(TriggerTime(exit, ladder[j].days), ladder[j].title, ladder[j].body) in Pending(exit, now, ladder)
  {
    var init := ladder[..|ladder| - 1];
    if j < |ladder| - 1 {
      assert init[j] == ladder[j];
      PendingComplete(exit, now, init, j);
    }
  }

  /** Rungs listed in decreasing order of days give alerts in chronological order. */
  lemma {:induction false} PendingChronological(exit: int, now: int, ladder: seq<AlertSpec>)
    requires forall i, j :: 0 <= i < j < |ladder| ==> ladder[i].days > ladder[j].days
    ensures forall i, j :: 0 <= i < j < |Pending(exit, now, ladder)| ==>
              Pending(exit, now, ladder)[i].trigger < Pending(exit, now, ladder)[j].trigger
  {
    if ladder != [] {
      var init := ladder[..|ladder| - 1];
      var last := ladder[|ladder| - 1];
      PendingChronological(exit, now, init);
      var p := Pending(exit, now, init);
      forall k | 0 <= k < |p| ensures p[k].trigger < TriggerTime(exit, last.days) {
        PendingSound(exit, now, init, k);
        var j :| 0 <= j < |init| && p[k] == Alert(TriggerTime(exit, init[j].days), init[j].title, init[j].body);
        assert init[j].days > last.days;
      }
    }
  }

  /** Both clients' ladders count down, so each schedule comes out in the order the
      alerts fire. */
  lemma LaddersChronological(exit: int, now: int, country: string)
    ensures var p := Pending(exit, now, WebLadder(country));
            forall i, j :: 0 <= i < j < |p| ==> p[i].trigger < p[j].trigger
    ensures var p := Pending(exit, now, NativeLadder(country));
            forall i, j :: 0 <= i < j < |p| ==> p[i].trigger < p[j].trigger
  {
    PendingChronological(exit, now, WebLadder(country));
    PendingChronological(exit, now, NativeLadder(country));
  }

  /** The native ladder never alerts on the exit day itself; the web ladder's last
      rung is 09:00 on the exit day. */
  lemma LadderDays(exit: int, country: string)
    ensures forall s :: s in NativeLadder(country) ==> TriggerTime(exit, s.days) / DayMs < exit / DayMs
    ensures forall s :: s in NativeLadder(country) ==> s.days in {14, 7, 3, 1}
    ensures [14, 7, 3, 1, 0] == seq(5, i requires 0 <= i < 5 => WebLadder(country)[i].days)
    ensures TriggerTime(exit, WebLadder(country)[4].days) == DayStart(exit) + 9 * HourMs
  {
  }

  /** 2025-06-30T00:00Z, with "now" at 2025-06-01T00:00Z: all four native alerts are
      scheduled, at 09:00 on June 16, 23, 27 and 29. */
  lemma NativeExampleAllFuture(country: string)
    ensures |Pending(1751241600000, 1748736000000, NativeLadder(country))| == 4
    ensures forall i :: 0 <= i < 4 ==>
              Pending(1751241600000, 1748736000000, NativeLadder(country))[i].trigger ==
                [1750032000000, 1750636800000, 1750982400000, 1751155200000][i] + 9 * HourMs
  {
    var e, n, l := 1751241600000, 1748736000000, NativeLadder(country);
    assert l[..1][..0] == [] && l[..2][..1] == l[..1] && l[..3][..2] == l[..2] && l[..3] == l[..|l| - 1];
    assert |Pending(e, n, l[..1])| == 1 && Pending(e, n, l[..1])[0].trigger == 1750032000000 + 9 * HourMs;
    assert |Pending(e, n, l[..2])| == 2 && Pending(e, n, l[..2])[1].trigger == 1750636800000 + 9 * HourMs;
    assert |Pending(e, n, l[..3])| == 3 && Pending(e, n, l[..3])[2].trigger == 1750982400000 + 9 * HourMs;
  }

  /** Same trip, with "now" at 2025-06-20T00:00Z, after the 14-day trigger and before
      the 7-day one: the 14-day alert is dropped, the other three remain. */
  lemma NativeExamplePastDropped(country: string)
    ensures |Pending(1751241600000, 1750377600000, NativeLadder(country))| == 3
    ensures forall i :: 0 <= i < 3 ==>
              Pending(1751241600000, 1750377600000, NativeLadder(country))[i].trigger ==
                [1750636800000, 1750982400000, 1751155200000][i] + 9 * HourMs
  {
    var e, n, l := 1751241600000, 1750377600000, NativeLadder(country);
    assert l[..1][..0] == [] && l[..2][..1] == l[..1] && l[..3][..2] == l[..2] && l[..3] == l[..|l| - 1];
    assert Pending(e, n, l[..1]) == [];
    assert |Pending(e, n, l[..2])| == 1 && Pending(e, n, l[..2])[0].trigger == 1750636800000 + 9 * HourMs;
    assert |Pending(e, n, l[..3])| == 2 && Pending(e, n, l[..3])[1].trigger == 1750982400000 + 9 * HourMs;
  }
}
