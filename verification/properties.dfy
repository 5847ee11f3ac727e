/** What one processed event guarantees: the calendar keeps its shape, the
    metrics stay consistent, vehicles are conserved, and the light cycles. */
module Properties {
  import opened Wrappers
  import opened Errors
  import opened Movements
  import opened States
  import opened Calendar
  import opened Simulation
  import opened Dispatch

  /** The calendar shape every run keeps: exactly one pending light change,
      and arrival and departure streams in time order. */
  predicate CalendarInvariant(c: Calendar)
  {
    |c.lightChanges| == 1 && Ordered(c)
  }

  lemma InitCalendarInvariant(cfg: Config, d: Draws)
    requires Init(cfg, d).Success?
    ensures CalendarInvariant(Init(cfg, d).value.calendar)
  {
  }

  lemma TakeKeepsOrder(c: Calendar)
    requires Ordered(c) && NextEvent(c).Some?
    ensures Ordered(NextEvent(c).value.1)
    ensures |NextEvent(c).value.1.lightChanges| == |c.lightChanges| - (if NextEvent(c).value.0.Switch? then 1 else 0)
  {
    var e := NextEvent(c).value.0;
    if e.Depart? {
      SortedTail(c.departures);
    } else if e.Arrive? {
      SortedTail(c.arrivals);
    }
  }

  lemma DepartureKeepsCalendarInvariant(cfg: Config, sim: Sim, open: seq<string>, t: real, name: string, d: Draws)
    requires Ordered(sim.calendar) && |sim.calendar.lightChanges| <= 1
    requires OnDeparture(cfg, sim, open, t, name, d).Success?
    ensures var c := OnDeparture(cfg, sim, open, t, name, d).value.calendar;
      Ordered(c) && (|c.lightChanges| == 1 || c.lightChanges == sim.calendar.lightChanges)
  {
  }

  /** One processed event keeps the calendar invariant. */
  lemma StepKeepsCalendarInvariant(cfg: Config, sim: Sim, d: Draws)
    requires CalendarInvariant(sim.calendar)
    requires Step(cfg, sim, d).Success?
    ensures CalendarInvariant(Step(cfg, sim, d).value.calendar)
  {
    var next := NextEvent(sim.calendar).value;
    TakeKeepsOrder(sim.calendar);
    var open := cfg.policy[sim.state.light];
    var sim0 := sim.(calendar := next.1);
    match next.0
    case Arrive(t, name) =>
    case Depart(t, name) =>
      DepartureKeepsCalendarInvariant(cfg, sim0, open, t, name, d);
    case Switch(t, light) =>
  }

  // ---------------------------------------------------------------------
  // Vehicle conservation

  /** Vehicles queued plus vehicles already dispatched. */
  function Tally(sim: Sim): nat
  {
    Queued(sim.state) + sim.metrics.totalCars
  }

  /** The event is an arrival whose vehicle joined a queue: a known road that
      was closed or already had a queue. */
  predicate Joins(cfg: Config, sim: Sim, e: Event)
    requires sim.state.light in cfg.policy
  {
    && e.Arrive?
    && Parse(e.road).Some?
    && !PassesThrough(AdvanceClock(sim.state, e.time), cfg.policy[sim.state.light], e.road)
  }

  lemma ServeConserves(sim: Sim, st: Intersection, name: string, d: Draws, preempt: bool, open: seq<string>)
    requires Parse(name).Some? && QueueAt(st, name) != []
    requires Serve(sim, st, name, d, preempt, open).Success?
    ensures Queued(Serve(sim, st, name, d, preempt, open).value.state) + 1 == Queued(st)
    ensures Serve(sim, st, name, d, preempt, open).value.metrics.totalCars == sim.metrics.totalCars + 1
  {
  }

  lemma DepartureConserves(cfg: Config, sim: Sim, open: seq<string>, t: real, name: string, d: Draws)
    requires OnDeparture(cfg, sim, open, t, name, d).Success?
    ensures Tally(OnDeparture(cfg, sim, open, t, name, d).value) == Tally(sim)
  {
    var st := AdvanceClock(sim.state, t);
    var q := QueueAt(st, name);
    if q != [] && name in open {
      ServeConserves(sim, st, name, d, cfg.smart, open);
    } else if q != [] && st.light == 5 && PassesOrange(st.clock - st.timeLastOrange, cfg.orangeTime, d.uniform) {
      ServeConserves(sim, st, name, d, false, open);
    }
  }

  lemma ArrivalConserves(cfg: Config, sim: Sim, open: seq<string>, t: real, name: string, d: Draws)
    requires OnArrival(cfg, sim, open, t, name, d).Success?
    ensures Tally(OnArrival(cfg, sim, open, t, name, d).value)
      == Tally(sim) + (if Parse(name).Some? && !PassesThrough(AdvanceClock(sim.state, t), open, name) then 1 else 0)
  {
  }

  lemma LightChangeConserves(cfg: Config, sim: Sim, t: real, target: int, d: Draws)
    requires OnLightChange(cfg, sim, t, target, d).Success?
    ensures Tally(OnLightChange(cfg, sim, t, target, d).value) == Tally(sim)
  {
    assert Queued(ChangeLights(AdvanceClock(sim.state, t), target)) == Queued(sim.state);
  }

  /** Conservation: a processed event changes the number of vehicles queued
      plus dispatched by one exactly when it is an arrival that joins a
      queue, and otherwise leaves it unchanged; pass-through vehicles are in
      neither count. */
  lemma StepConserves(cfg: Config, sim: Sim, d: Draws)
    requires Step(cfg, sim, d).Success?
    ensures NextEvent(sim.calendar).Some? && sim.state.light in cfg.policy
    ensures Tally(Step(cfg, sim, d).value) == Tally(sim) + (if Joins(cfg, sim, NextEvent(sim.calendar).value.0) then 1 else 0)
  {
    var next := NextEvent(sim.calendar).value;
    var open := cfg.policy[sim.state.light];
    var sim0 := sim.(calendar := next.1);
    var sim1 := Handle(cfg, sim0, open, next.0, d).value;
    assert Step(cfg, sim, d).value == Sample(sim1);
    assert Tally(Sample(sim1)) == Tally(sim1);
    assert Tally(sim0) == Tally(sim);
    match next.0
    case Arrive(t, name) =>
      ArrivalConserves(cfg, sim0, open, t, name, d);
    case Depart(t, name) =>
      DepartureConserves(cfg, sim0, open, t, name, d);
    case Switch(t, light) =>
      LightChangeConserves(cfg, sim0, t, light, d);
  }

  // ---------------------------------------------------------------------
  // Clock and samples

  /** A processed event moves the clock to the event's time and appends
      exactly one sample, the number of vehicles then queued. */
  lemma StepClockAndSample(cfg: Config, sim: Sim, d: Draws)
    requires Step(cfg, sim, d).Success?
    ensures NextEvent(sim.calendar).Some?
    ensures Step(cfg, sim, d).value.state.clock == NextEvent(sim.calendar).value.0.time
    ensures Step(cfg, sim, d).value.metrics.series == sim.metrics.series + [Queued(Step(cfg, sim, d).value.state)]
  {
    var next := NextEvent(sim.calendar).value;
    var sim0 := sim.(calendar := next.1);
    var sim1 := Handle(cfg, sim0, cfg.policy[sim.state.light], next.0, d).value;
    assert Step(cfg, sim, d).value == Sample(sim1);
  }

  /** Every pending event is due no earlier than the clock. */
  predicate Ahead(sim: Sim)
  {
    && (forall i :: 0 <= i < |sim.calendar.departures| ==> sim.state.clock <= sim.calendar.departures[i].time)
    && (forall i :: 0 <= i < |sim.calendar.arrivals| ==> sim.state.clock <= sim.calendar.arrivals[i].time)
    && (forall i :: 0 <= i < |sim.calendar.lightChanges| ==> sim.state.clock <= sim.calendar.lightChanges[i].time)
  }

  /** While no pending event lies in the past, the clock does not run
      backwards. */
  lemma StepMonotoneWhenAhead(cfg: Config, sim: Sim, d: Draws)
    requires Ahead(sim)
    requires Step(cfg, sim, d).Success?
    ensures sim.state.clock <= Step(cfg, sim, d).value.state.clock
  {
    StepClockAndSample(cfg, sim, d);
    var e := NextEvent(sim.calendar).value.0;
    match e
    case Depart(_, _) => assert sim.calendar.departures[0].time == e.time;
    case Arrive(_, _) => assert sim.calendar.arrivals[0].time == e.time;
    case Switch(_, _) => assert sim.calendar.lightChanges[0].time == e.time;
  }

  /** An arrival step schedules the road's next arrival into the arrival
      stream it left. */
  lemma ArrivalStep(cfg: Config, sim: Sim, d: Draws)
    requires Step(cfg, sim, d).Success?
    requires NextEvent(sim.calendar).Some? && NextEvent(sim.calendar).value.0.Arrive?
    ensures var e := NextEvent(sim.calendar).value.0;
      && NextArrival(cfg, e.time, e.road, d.beta(0)).Success?
      && Step(cfg, sim, d).value.calendar.arrivals
           == Schedule(NextEvent(sim.calendar).value.1.arrivals, Entry(NextArrival(cfg, e.time, e.road, d.beta(0)).value, e.road))
  {
    var next := NextEvent(sim.calendar).value;
    var sim0 := sim.(calendar := next.1);
    var sim1 := Handle(cfg, sim0, cfg.policy[sim.state.light], next.0, d).value;
    assert Step(cfg, sim, d).value == Sample(sim1);
  }

  /** The first entry of a sorted stream is due no later than any entry. */
  lemma HeadIsEarliest<T>(s: seq<Entry<T>>, e: Entry<T>)
    requires Sorted(s) && e in multiset(s)
    ensures s[0].time <= e.time
  {
    var k :| 0 <= k < |s| && s[k] == e;
    SortedPair(s, 0, k);
  }

  /** The arrival interval can be negative: off-peak, a draw with
      `scale * beta < 0.5` schedules the road's next arrival before the
      clock, and the next event then moves the clock backwards. The loop's
      time check compares the clock with itself and does not notice. */
  lemma ArrivalCanRewindClock(cfg: Config, sim: Sim, d: Draws, d2: Draws)
    requires Step(cfg, sim, d).Success?
    requires NextEvent(sim.calendar).Some? && NextEvent(sim.calendar).value.0.Arrive?
    requires !InRush(cfg.rush, NextEvent(sim.calendar).value.0.time)
    requires ScaleOf(cfg.roads, NextEvent(sim.calendar).value.0.road).Some?
    requires ScaleOf(cfg.roads, NextEvent(sim.calendar).value.0.road).value * d.beta(0) < 0.5
    requires Step(cfg, Step(cfg, sim, d).value, d2).Success?
    ensures Step(cfg, Step(cfg, sim, d).value, d2).value.state.clock < Step(cfg, sim, d).value.state.clock
  {
    var e := NextEvent(sim.calendar).value.0;
    var s1 := Step(cfg, sim, d).value;
    StepClockAndSample(cfg, sim, d);
    ArrivalStep(cfg, sim, d);
    var next := NextArrival(cfg, e.time, e.road, d.beta(0)).value;
    assert next < e.time;
    var entry := Entry(next, e.road);
    assert entry in multiset(s1.calendar.arrivals);
    HeadIsEarliest(s1.calendar.arrivals, entry);
    StepClockAndSample(cfg, s1, d2);
  }

  // ---------------------------------------------------------------------
  // Metrics consistency

  /** Sum of the per-road vehicle counts. */
  function SumCounts(c: PerRoad<nat>): nat
  {
    c.ns + c.nl + c.es + c.el + c.ss + c.sl + c.ws + c.wl
  }

  /** Sum of the per-road waits. */
  function SumWaits(w: PerRoad<real>): real
  {
    w.ns + w.nl + w.es + w.el + w.ss + w.sl + w.ws + w.wl
  }

  /** Replacing one road's count changes the sum by the difference. */
  lemma SumCountsSet(c: PerRoad<nat>, m: Movement, v: nat)
    ensures SumCounts(c.Set(m, v)) + c.Get(m) == SumCounts(c) + v
  {
    match m
    case NS => case NL => case ES => case EL =>
    case SS => case SL => case WS => case WL =>
  }

  /** Replacing one road's wait changes the sum by the difference. */
  lemma SumWaitsSet(w: PerRoad<real>, m: Movement, v: real)
    ensures SumWaits(w.Set(m, v)) + w.Get(m) == SumWaits(w) + v
  {
    match m
    case NS => case NL => case ES => case EL =>
    case SS => case SL => case WS => case WL =>
  }

  /** The aggregate totals are the sums of the per-road totals. */
  predicate Consistent(mt: Metrics)
  {
    mt.totalCars == SumCounts(mt.roadCars) && mt.totalWait == SumWaits(mt.roadWait)
  }

  lemma InitConsistent()
    ensures Consistent(NoMetrics)
  {
  }

  /** Charging a vehicle adds the same wait and count to its road and to
      the aggregate. */
  lemma ChargeConsistent(mt: Metrics, m: Movement, w: real)
    requires Consistent(mt)
    ensures Consistent(Charge(mt, m, w))
  {
    SumCountsSet(mt.roadCars, m, mt.roadCars.Get(m) + 1);
    SumWaitsSet(mt.roadWait, m, mt.roadWait.Get(m) + w);
  }

  /** A departure either leaves the metrics alone or charges the oldest
      vehicle of its road the time it waited. */
  lemma DepartureCharges(cfg: Config, sim: Sim, open: seq<string>, t: real, name: string, d: Draws)
    requires OnDeparture(cfg, sim, open, t, name, d).Success?
    ensures Parse(name).Some?
    ensures var mt := OnDeparture(cfg, sim, open, t, name, d).value.metrics;
      || mt == sim.metrics
      || (QueueAt(sim.state, name) != [] && mt == Charge(sim.metrics, Parse(name).value, t - Oldest(QueueAt(sim.state, name))))
  {
    var q := QueueAt(sim.state, name);
    if q != [] && name in open {
      ServeBranchCharges(cfg, sim, open, t, name, d);
    } else if q != [] && sim.state.light == 5 {
      OrangeBranchCharges(cfg, sim, open, t, name, d);
    }
  }

  /** The open-road branch of a departure charges the oldest vehicle. */
  lemma ServeBranchCharges(cfg: Config, sim: Sim, open: seq<string>, t: real, name: string, d: Draws)
    requires Parse(name).Some? && QueueAt(sim.state, name) != [] && name in open
    requires OnDeparture(cfg, sim, open, t, name, d).Success?
    ensures OnDeparture(cfg, sim, open, t, name, d).value.metrics
      == Charge(sim.metrics, Parse(name).value, t - Oldest(QueueAt(sim.state, name)))
  {
    var st := AdvanceClock(sim.state, t);
    assert QueueAt(st, name) == QueueAt(sim.state, name);
    var v := Serve(sim, st, name, d, cfg.smart, open);
    assert v.Success?;
  }

  /** The closed-road branch during an orange either keeps or charges. */
  lemma OrangeBranchCharges(cfg: Config, sim: Sim, open: seq<string>, t: real, name: string, d: Draws)
    requires Parse(name).Some? && QueueAt(sim.state, name) != [] && name !in open && sim.state.light == 5
    requires OnDeparture(cfg, sim, open, t, name, d).Success?
    ensures var mt := OnDeparture(cfg, sim, open, t, name, d).value.metrics;
      mt == sim.metrics || mt == Charge(sim.metrics, Parse(name).value, t - Oldest(QueueAt(sim.state, name)))
  {
    var st := AdvanceClock(sim.state, t);
    assert QueueAt(st, name) == QueueAt(sim.state, name);
    assert cfg.orangeTime != 0.0;
    if PassesOrange(st.clock - st.timeLastOrange, cfg.orangeTime, d.uniform) {
      ServeCharges(sim, st, name, d, open);
    }
  }

  lemma ServeCharges(sim: Sim, st: Intersection, name: string, d: Draws, open: seq<string>)
    requires Parse(name).Some? && QueueAt(st, name) != []
    ensures Serve(sim, st, name, d, false, open).Success?
    ensures Serve(sim, st, name, d, false, open).value.metrics
      == Charge(sim.metrics, Parse(name).value, st.clock - Oldest(QueueAt(st, name)))
  {
    var r := Serve(sim, st, name, d, false, open);
    assert r.Success?;
  }

  lemma DepartureConsistent(cfg: Config, sim: Sim, open: seq<string>, t: real, name: string, d: Draws)
    requires Consistent(sim.metrics)
    requires OnDeparture(cfg, sim, open, t, name, d).Success?
    ensures Consistent(OnDeparture(cfg, sim, open, t, name, d).value.metrics)
  {
    DepartureCharges(cfg, sim, open, t, name, d);
    if QueueAt(sim.state, name) != [] {
      ChargeConsistent(sim.metrics, Parse(name).value, t - Oldest(QueueAt(sim.state, name)));
    }
  }

  /** A processed event keeps the per-road totals adding up to the
      aggregate ones. */
  lemma StepConsistent(cfg: Config, sim: Sim, d: Draws)
    requires Consistent(sim.metrics)
    requires Step(cfg, sim, d).Success?
    ensures Consistent(Step(cfg, sim, d).value.metrics)
  {
    var next := NextEvent(sim.calendar).value;
    var open := cfg.policy[sim.state.light];
    var sim0 := sim.(calendar := next.1);
    var sim1 := Handle(cfg, sim0, open, next.0, d).value;
    assert Step(cfg, sim, d).value == Sample(sim1);
    match next.0
    case Arrive(t, name) =>
    case Depart(t, name) =>
      DepartureConsistent(cfg, sim0, open, t, name, d);
    case Switch(t, light) =>
  }
}
