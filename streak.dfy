/** The couple streak on the home tab: events of all three histories are
    bucketed per local day into a map, then days are probed backwards from
    today, at most 30 of them, stopping at the first day without events. */
module Streak {
  import opened Activity

  /** How many days are probed. */
  const Horizon: nat := 30

  /** The day of every event, meals first, then exercises, then moods. */
  function EventDays(meals: seq<Meal>, exercises: seq<Exercise>, moods: seq<Mood>): (days: seq<int>)
    ensures |days| == |meals| + |exercises| + |moods|
    ensures forall d :: d in days <==>
              (exists m :: m in meals && m.day == d)
              || (exists e :: e in exercises && e.day == d)
              || (exists m :: m in moods && m.day == d)
  {
    var a := seq(|meals|, i requires 0 <= i < |meals| => meals[i].day);
    var b := seq(|exercises|, i requires 0 <= i < |exercises| => exercises[i].day);
    var c := seq(|moods|, i requires 0 <= i < |moods| => moods[i].day);
    assert forall m :: m in meals ==> m.day in a by {
      forall m | m in meals ensures m.day in a {
        var i :| 0 <= i < |meals| && meals[i] == m;
        assert a[i] == m.day;
      }
    }
    assert forall e :: e in exercises ==> e.day in b by {
      forall e | e in exercises ensures e.day in b {
        var i :| 0 <= i < |exercises| && exercises[i] == e;
        assert b[i] == e.day;
      }
    }
    assert forall m :: m in moods ==> m.day in c by {
      forall m | m in moods ensures m.day in c {
        var i :| 0 <= i < |moods| && moods[i] == m;
        assert c[i] == m.day;
      }
    }
    a + b + c
  }

  /** The number of consecutive days with an event among `d`, `d-1`, ...,
      looking at no more than `n` of them. */
  function Run(days: seq<int>, d: int, n: nat): (r: nat)
    ensures r <= n
    ensures forall x :: d - r < x <= d ==> x in days
    ensures r < n ==> d - r !in days
    decreases n
  {
    if n == 0 || d !in days then 0 else 1 + Run(days, d - 1, n - 1)
  }

  /** The streak as a function of the event days and today's day number. */
  function Streak(days: seq<int>, today: int): (r: nat)
    ensures r <= Horizon
    ensures today !in days ==> r == 0
    ensures forall x :: today - r < x <= today ==> x in days
    ensures r < Horizon ==> today - r !in days
  {
    Run(days, today, Horizon)
  }

  /** The three properties in `Run`'s contract pin its value down. */
  lemma {:induction false} RunUnique(days: seq<int>, d: int, n: nat, m: nat)
    requires m <= n
    requires forall x :: d - m < x <= d ==> x in days
    requires m < n ==> d - m !in days
    ensures Run(days, d, n) == m
    decreases n
  {
    if n != 0 && d in days {
      assert m != 0;
      RunUnique(days, d - 1, n - 1, m - 1);
    }
  }

  /** The streak is the length of the run of event days ending today,
      capped at 30. */
  lemma StreakCharacterized(days: seq<int>, today: int, m: nat)
    requires m <= Horizon
    requires forall x :: today - m < x <= today ==> x in days
    requires m < Horizon ==> today - m !in days
    ensures Streak(days, today) == m
  {
    RunUnique(days, today, Horizon, m);
  }

  /** More event days never give a shorter run. */
  lemma {:induction false} RunMonotone(days: seq<int>, more: seq<int>, d: int, n: nat)
    requires forall x :: x in days ==> x in more
    ensures Run(days, d, n) <= Run(more, d, n)
    decreases n
  {
    if n != 0 && d in days {
      RunMonotone(days, more, d - 1, n - 1);
    }
  }

  /** An event on a day the run never looks at leaves it unchanged. */
  lemma {:induction false} RunIgnoresFarDays(days: seq<int>, e: int, d: int, n: nat)
    requires e > d || e <= d - n
    ensures Run(days + [e], d, n) == Run(days, d, n)
    decreases n
  {
    if n != 0 {
      assert d in days + [e] <==> d in days;
      RunIgnoresFarDays(days, e, d - 1, n - 1);
    }
  }

  /** Adding an event never lowers the streak. */
  lemma AddingEventNeverLowers(days: seq<int>, e: int, today: int)
    ensures Streak(days, today) <= Streak(days + [e], today)
  {
    RunMonotone(days, days + [e], today, Horizon);
  }

  /** An event after today, or 30 or more days before it, never changes the streak. */
  lemma FarEventIsIgnored(days: seq<int>, e: int, today: int)
    requires e > today || e <= today - 30
    ensures Streak(days + [e], today) == Streak(days, today)
  {
    RunIgnoresFarDays(days, e, today, Horizon);
  }

  /** `byDay.get(key) || 0`. */
  function CountOf(byDay: map<int, nat>, key: int): nat {
    if key in byDay then byDay[key] else 0
  }

  /** The `all.forEach` loop of `computeStreak`: `byDay` ends with each
      day's number of events. */
  method CountByDay(all: seq<int>) returns (byDay: map<int, nat>)
    ensures forall d :: CountOf(byDay, d) == multiset(all)[d]
  {
    byDay := map[];
    var i := 0;
    while i < |all|
      invariant 0 <= i <= |all|
      invariant forall d :: CountOf(byDay, d) == multiset(all[..i])[d]
    {
      var key := all[i];
      assert all[..i + 1] == all[..i] + [key];
      byDay := byDay[key := CountOf(byDay, key) + 1];
      i := i + 1;
    }
    assert all[..i] == all;
  }

  /** `computeStreak`: fills `byDay` with a count per day, then counts
      consecutive days back from today that have a positive count. */
  method ComputeStreak(meals: seq<Meal>, exercises: seq<Exercise>, moods: seq<Mood>, today: int)
    returns (streak: nat)
    ensures streak == Streak(EventDays(meals, exercises, moods), today)
  {
    var all := EventDays(meals, exercises, moods);
    var byDay := CountByDay(all);
    streak := 0;
    var k := 0;
    while k < Horizon
      invariant 0 <= k <= Horizon && streak == k
      invariant forall x :: today - k < x <= today ==> x in all
    {
      if CountOf(byDay, today - k) > 0 {
        streak := streak + 1;
      } else {
        break;
      }
      k := k + 1;
    }
    StreakCharacterized(all, today, streak);
  }
}
