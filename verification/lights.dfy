/** The light cycle: which green follows an orange, and how long a green
    lasts under fixed and under smart timing. */
module Lights {
  import opened Wrappers
  import opened Errors
  import opened Movements
  import opened States
  import opened Calendar
  import opened Simulation
  import opened Dispatch

  /** The four greens follow each other in the order 1, 2, 3, 4 and then
      start again at 1: from any green, four oranges lead back to it and
      every green in between is a different one. */
  lemma {:induction false} GreensCycle(p: int)
    requires 1 <= p <= 4
    ensures 1 <= NextGreen(p) <= 4 && NextGreen(p) != p
    ensures NextGreen(NextGreen(NextGreen(NextGreen(p)))) == p
    ensures NextGreen(NextGreen(p)) != p && NextGreen(NextGreen(NextGreen(p))) != p
  {
    if p == 4 {
      assert NextGreen(4) == 1;
    } else {
      assert NextGreen(p) == p + 1;
    }
  }

  /** An orange entered from green `p` schedules green `p % 4 + 1` one
      orange time later, and records the clock as the start of the orange. */
  lemma OrangeSchedulesNextGreen(cfg: Config, sim: Sim, t: real, d: Draws)
    requires 1 <= sim.state.light <= 4
    ensures var r := OnLightChange(cfg, sim, t, 5, d);
      && r.Success?
      && r.value.state.light == 5
      && r.value.state.timeLastOrange == t
      && r.value.calendar.lightChanges[0] == Entry(cfg.orangeTime + t, sim.state.light % 4 + 1)
      && r.value.calendar.lightChanges[1..] == sim.calendar.lightChanges
  {
  }

  /** Fixed timing: a green `p` with `1 <= p <= |light_times|` schedules the
      next orange `light_times[p - 1]` after it begins. */
  lemma FixedGreenDuration(cfg: Config, sim: Sim, t: real, p: int, d: Draws)
    requires !cfg.smart && p != 5
    requires 1 <= p <= |cfg.lightTimes| && p in cfg.policy
    ensures var r := OnLightChange(cfg, sim, t, p, d);
      && r.Success?
      && r.value.state.light == p
      && r.value.state.timeLastOrange == sim.state.timeLastOrange
      && r.value.calendar.lightChanges[0] == Entry(cfg.lightTimes[p - 1] + t, 5)
  {
    assert PyIndex(|cfg.lightTimes|, p - 1) == Some(p - 1);
  }

  lemma {:induction false} SumRealsNonNegative(s: seq<real>)
    requires forall i :: 0 <= i < |s| ==> 0.0 <= s[i]
    ensures 0.0 <= SumReals(s)
    decreases |s|
  {
    if s != [] {
      assert forall i :: 0 <= i < |s[1..]| ==> s[1..][i] == s[i + 1];
      SumRealsNonNegative(s[1..]);
    }
  }

  /** The vehicles queued on distinct movements are at most all the
      vehicles queued. */
  lemma {:induction false} CountDistinctBound(qs: PerRoad<Queue>, ms: seq<Movement>)
    requires Distinct(ms)
    ensures Count(qs, ms) <= Total(qs)
    decreases |ms|
  {
    if ms != [] {
      var rest := qs.Set(ms[0], []);
      assert Distinct(ms[1..]) by {
        forall i, j | 0 <= i < j < |ms[1..]| ensures ms[1..][i] != ms[1..][j] {
          assert ms[1..][i] == ms[i + 1] && ms[1..][j] == ms[j + 1];
        }
      }
      assert ms[0] !in ms[1..] by {
        forall k | 0 <= k < |ms[1..]| ensures ms[1..][k] != ms[0] {
          assert ms[1..][k] == ms[k + 1];
        }
      }
      CountDistinctBound(rest, ms[1..]);
      CountSet(qs, ms[1..], ms[0], []);
      TotalSet(qs, ms[0], []);
    }
  }

  /** Smart timing: a green opening a non-empty list of distinct roads, with
      vehicles waiting somewhere, stays green for the share of all queued
      vehicles that wait on its roads, times the whole fixed cycle; the
      delay therefore lies between zero and the whole cycle. */
  lemma SmartGreenDuration(cfg: Config, st: Intersection, c: Calendar)
    requires SmartOrange(cfg, st, c).Success?
    requires cfg.policy[st.light] != []
    requires Distinct(ParseAll(cfg.policy[st.light]).value)
    requires forall i :: 0 <= i < |cfg.lightTimes| ==> 0.0 <= cfg.lightTimes[i]
    ensures st.clock <= SmartOrange(cfg, st, c).value.lightChanges[0].time <= st.clock + SumReals(cfg.lightTimes)
  {
    var time := SmartOrange(cfg, st, c).value.lightChanges[0].time;
    var load := OpenLoad(st, cfg.policy[st.light]).value;
    var cycle := SumReals(cfg.lightTimes);
    assert load <= Queued(st) by {
      CountDistinctBound(st.queues, ParseAll(cfg.policy[st.light]).value);
    }
    assert 0.0 <= cycle by {
      SumRealsNonNegative(cfg.lightTimes);
    }
    assert Queued(st) > 0 && time == st.clock + CycleShare(cycle, load, Queued(st)) by {
      SmartOrangeTime(cfg, st, c);
    }
    ShareOfCycle(st.clock, time, load, Queued(st), cycle);
    assert st.clock <= time <= st.clock + cycle;
  }

  lemma SmartOrangeTime(cfg: Config, st: Intersection, c: Calendar)
    requires SmartOrange(cfg, st, c).Success?
    requires cfg.policy[st.light] != []
    ensures Queued(st) > 0
    ensures SmartOrange(cfg, st, c).value.lightChanges[0].time
      == st.clock + CycleShare(SumReals(cfg.lightTimes), OpenLoad(st, cfg.policy[st.light]).value, Queued(st))
  {
  }

  lemma ShareOfCycle(clock: real, time: real, part: nat, whole: nat, cycle: real)
    requires part <= whole && 0 < whole && 0.0 <= cycle
    requires time == clock + CycleShare(cycle, part, whole)
    ensures clock <= time <= clock + cycle
  {
    var ratio := part as real / whole as real;
    assert CycleShare(cycle, part, whole) == cycle * ratio;
    assert ratio * whole as real == part as real;
    assert 0.0 <= ratio <= 1.0;
    assert cycle * ratio <= cycle * 1.0;
  }

  /** Smart timing divides by the number of queued vehicles whenever the
      green opens some road, so a green that opens known roads while every
      queue is empty aborts the run. */
  lemma SmartGreenFailsWhenIdle(cfg: Config, sim: Sim, t: real, p: int, d: Draws)
    requires cfg.smart && p != 5
    requires p in cfg.policy && cfg.policy[p] != [] && ParseAll(cfg.policy[p]).Success?
    requires Queued(sim.state) == 0
    ensures OnLightChange(cfg, sim, t, p, d) == Failure(DivisionByZero)
  {
    var st1 := ChangeLights(AdvanceClock(sim.state, t), p);
    assert Parse(cfg.policy[p][0]).Some?;
    assert !NamesBlank(cfg.policy[p]);
    assert SmartOrange(cfg, st1, sim.calendar) == Failure(DivisionByZero);
  }

  /** The smart "nothing open" branch tests the road names, not their
      queues: an empty policy entry is the only way to reach it, and it then
      schedules an orange now, or in ten time units when every queue is
      empty. */
  lemma SmartEmptyPolicy(cfg: Config, st: Intersection, c: Calendar)
    requires st.light in cfg.policy && cfg.policy[st.light] == []
    ensures SmartOrange(cfg, st, c).Success?
    ensures SmartOrange(cfg, st, c).value.lightChanges[0].time == st.clock + (if Queued(st) == 0 then 10.0 else 0.0)
  {
  }

  // ---------------------------------------------------------------------
  // The orange test

  /** A vehicle facing orange passes less and less often as the orange ages:
      whatever passes at elapsed time `e2` also passes at any earlier `e1`,
      and once the orange time is over no draw below one passes. */
  lemma OrangeWindow(e1: real, e2: real, orangeTime: real, u: real)
    requires 0.0 < orangeTime && e1 <= e2
    ensures PassesOrange(e2, orangeTime, u) ==> PassesOrange(e1, orangeTime, u)
    ensures orangeTime <= e2 && u < 1.0 ==> !PassesOrange(e2, orangeTime, u)
    ensures e1 <= 0.0 && 0.0 < u ==> PassesOrange(e1, orangeTime, u)
  {
    assert e1 / orangeTime <= e2 / orangeTime;
    assert orangeTime <= e2 ==> 1.0 <= e2 / orangeTime;
    assert e1 <= 0.0 ==> e1 / orangeTime <= 0.0;
  }

  /** Preemption replaces whatever light changes were pending by a single
      orange at the current clock. */
  lemma PreemptLeavesOneOrange(st: Intersection, c: Calendar, open: seq<string>)
    requires Preempt(st, c, open).Success? && AnyEmpty(st, open).value
    ensures Preempt(st, c, open).value.lightChanges == [Entry(st.clock, 5)]
    ensures Preempt(st, c, open).value.departures == c.departures
    ensures Preempt(st, c, open).value.arrivals == c.arrivals
  {
  }

  // ---------------------------------------------------------------------
  // The arrival process

  /** Inside the rush window in force (the first one wins where they
      overlap) the multiplier is at least one, since a window of at most
      four hours keeps every instant within two hours of its midpoint; so
      arrivals come at least as often as off-peak. */
  lemma RushShortensGap(rush: RushHours, c: real, scale: real, beta: real)
    requires || (rush.start1 < c < rush.end1 && rush.end1 - rush.start1 <= 14400.0)
             || (!(rush.start1 < c < rush.end1) && rush.start2 < c < rush.end2 && rush.end2 - rush.start2 <= 14400.0)
    requires 0.0 <= scale && 0.0 <= beta
    ensures 1.0 <= ActiveMultiplier(rush, c)
    ensures ArrivalGap(rush, c, scale, beta).Success?
    ensures ArrivalGap(rush, c, scale, beta).value <= CapAtOne(-0.5 + scale * beta)
  {
    RushMultiplierAtLeastOne(rush, c);
    ScaledGapAtMostOffPeak(InRush(rush, c), ActiveMultiplier(rush, c), scale, beta);
  }

  /** Within two hours of the midpoint of the window in force the
      multiplier does not drop below one. */
  lemma RushMultiplierAtLeastOne(rush: RushHours, c: real)
    requires || (rush.start1 < c < rush.end1 && rush.end1 - rush.start1 <= 14400.0)
             || (!(rush.start1 < c < rush.end1) && rush.start2 < c < rush.end2 && rush.end2 - rush.start2 <= 14400.0)
    ensures 1.0 <= ActiveMultiplier(rush, c)
  {
    if rush.start1 < c < rush.end1 {
      assert Abs(c - Mid(rush.start1, rush.end1)) <= 7200.0;
    } else {
      assert Abs(c - Mid(rush.start2, rush.end2)) <= 7200.0;
    }
  }

  /** A multiplier of at least one never lengthens the gap to the next
      arrival beyond its off-peak value. */
  lemma ScaledGapAtMostOffPeak(inRush: bool, m: real, scale: real, beta: real)
    requires 1.0 <= m && 0.0 <= scale && 0.0 <= beta
    ensures ScaledGap(inRush, m, scale, beta).Success?
    ensures ScaledGap(inRush, m, scale, beta).value <= CapAtOne(-0.5 + scale * beta)
  {
    var q := scale / m;
    assert q * m == scale;
    assert 0.0 <= q;
    assert scale - q == q * (m - 1.0);
    assert (scale - q) * beta >= 0.0;
  }
}
