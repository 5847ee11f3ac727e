/** The body of `main`'s event loop: one processed event per `Step`. */
module Dispatch {
  import opened Wrappers
  import opened Errors
  import opened Movements
  import opened States
  import opened Calendar
  import opened Simulation

  // ---------------------------------------------------------------------
  // Arrivals

  /** An arriving vehicle passes straight through: its road is open and its
      queue is empty. */
  predicate PassesThrough(st: Intersection, open: seq<string>, name: string)
  {
    name in open && Parse(name).Some? && st.queues.Get(Parse(name).value) == []
  }

  /** The pass-through test `name in open_roads and not get_road_state(name)`;
      the queue is only looked up for an open road. */
  function PassTest(st: Intersection, open: seq<string>, name: string): (r: Result<bool, SimError>)
    ensures r.Failure? <==> name in open && Parse(name).None?
    ensures r.Failure? ==> r.error == InvalidMovement(name)
    ensures r.Success? ==> (r.value <==> PassesThrough(st, open, name))
  {
    if name in open then
      var q :- GetRoadState(st, name);
      Success(q == [])
    else Success(false)
  }

  /** An arrival at time `t` on road `name`: the vehicle passes through or
      joins its queue, and the road's next arrival is scheduled. Arrivals
      never touch the metrics. */
  function OnArrival(cfg: Config, sim: Sim, open: seq<string>, t: real, name: string, d: Draws): (r: Result<Sim, SimError>)
    ensures r.Success? <==> !(name in open && Parse(name).None?) && NextArrival(cfg, t, name, d.beta(0)).Success?
    ensures name in open && Parse(name).None? ==> r == Failure(InvalidMovement(name))
    ensures r.Success? ==>
      var st := AdvanceClock(sim.state, t);
      && r.value.metrics == sim.metrics
      && (PassesThrough(st, open, name) ==> r.value.state == st)
      && (!PassesThrough(st, open, name) ==> r.value.state == Enqueue(st, name, t))
    ensures r.Success? ==>
      && NextArrival(cfg, t, name, d.beta(0)).Success?
      && r.value.calendar.arrivals == Schedule(sim.calendar.arrivals, Entry(NextArrival(cfg, t, name, d.beta(0)).value, name))
      && r.value.calendar.departures == sim.calendar.departures
      && r.value.calendar.lightChanges == sim.calendar.lightChanges
  {
    var st := AdvanceClock(sim.state, t);
    var passes :- PassTest(st, open, name);
    var st1 := if passes then st else Enqueue(st, name, t);
    var next :- NextArrival(cfg, st1.clock, name, d.beta(0));
    var cal := SortArrivals(ScheduleArrival(sim.calendar, Entry(next, name)));
    Success(sim.(state := st1, calendar := cal))
  }

  // ---------------------------------------------------------------------
  // Departures

  /** Whether any of the named roads has an empty queue; an unknown name is
      an error, as `get_road_state` raises for it. */
  function AnyEmpty(st: Intersection, names: seq<string>): (r: Result<bool, SimError>)
    ensures r.Success? <==> forall i :: 0 <= i < |names| ==> Parse(names[i]).Some?
    ensures r.Success? ==>
      (r.value <==> exists i :: 0 <= i < |names| && st.queues.Get(Parse(names[i]).value) == [])
  {
    var ms :- ParseAll(names);
    Success(exists i :: 0 <= i < |ms| && st.queues.Get(ms[i]) == [])
  }

  /** Smart preemption after a green departure: when some open road is now
      empty, every pending light change gives way to an orange right now. */
  function Preempt(st: Intersection, c: Calendar, open: seq<string>): (r: Result<Calendar, SimError>)
    ensures r.Success? <==> AnyEmpty(st, open).Success?
    ensures r.Success? && AnyEmpty(st, open).value ==> r.value == ClearLightChange(c).(lightChanges := [Entry(st.clock, 5)])
    ensures r.Success? && !AnyEmpty(st, open).value ==> r.value == c
  {
    var empty :- AnyEmpty(st, open);
    if empty then Success(ScheduleLightChange(ClearLightChange(c), Entry(st.clock, 5))) else Success(c)
  }

  /** The metrics after charging a vehicle of movement `m` a wait of `w`. */
  function Charge(mt: Metrics, m: Movement, w: real): (r: Metrics)
    ensures r.totalWait == mt.totalWait + w && r.totalCars == mt.totalCars + 1
    ensures r.roadWait.Get(m) == mt.roadWait.Get(m) + w && r.roadCars.Get(m) == mt.roadCars.Get(m) + 1
    ensures forall k :: k != m ==> r.roadWait.Get(k) == mt.roadWait.Get(k) && r.roadCars.Get(k) == mt.roadCars.Get(k)
    ensures r.series == mt.series
  {
    mt.(totalWait := mt.totalWait + w,
        totalCars := mt.totalCars + 1,
        roadWait := mt.roadWait.Set(m, mt.roadWait.Get(m) + w),
        roadCars := mt.roadCars.Set(m, mt.roadCars.Get(m) + 1))
  }

  /** The queue a departure event finds, if the road name is known. */
  function QueueAt(st: Intersection, name: string): Queue
    requires Parse(name).Some?
  {
    st.queues.Get(Parse(name).value)
  }

  /** A vehicle leaves: the oldest one queued on `name` is removed and
      charged `clock - arrival`, and the road's next departure is scheduled
      `exp(0)` later. With `preempt`, the smart preemption runs first. */
  function Serve(sim: Sim, st: Intersection, name: string, d: Draws, preempt: bool, open: seq<string>): (r: Result<Sim, SimError>)
    requires Parse(name).Some? && QueueAt(st, name) != []
    ensures !preempt ==> r.Success?
    ensures r.Success? ==> r.value.state == Departure(st, name).value.1
    ensures r.Success? ==> r.value.state.queues.Get(Parse(name).value) == Rest(QueueAt(st, name))
    ensures r.Success? ==> r.value.metrics == Charge(sim.metrics, Parse(name).value, st.clock - Oldest(QueueAt(st, name)))
    ensures r.Success? ==> r.value.calendar.departures == Schedule(sim.calendar.departures, Entry(d.exp(0) + st.clock, name))
    ensures r.Success? ==> r.value.calendar.arrivals == sim.calendar.arrivals
    ensures r.Success? && !preempt ==> r.value.calendar.lightChanges == sim.calendar.lightChanges
    ensures r.Success? && preempt ==>
      Preempt(r.value.state, sim.calendar, open) == Success(r.value.calendar.(departures := sim.calendar.departures))
  {
    var out := Departure(st, name).value;
    var st1 := out.1;
    var m := Parse(name).value;
    assert out.0 == Some(Oldest(QueueAt(st, name)));
    var mt := Charge(sim.metrics, m, st.clock - Oldest(QueueAt(st, name)));
    var next := Entry(d.exp(0) + st.clock, name);
    if preempt then
      var cal :- Preempt(st1, sim.calendar, open);
      Success(Sim(st1, ScheduleDeparture(cal, next), mt))
    else
      Success(Sim(st1, ScheduleDeparture(sim.calendar, next), mt))
  }

  /** The orange test: a vehicle passes iff the uniform draw exceeds the
      fraction of the orange time already elapsed. */
  predicate PassesOrange(elapsed: real, orangeTime: real, u: real)
    requires orangeTime != 0.0
  {
    u > elapsed / orangeTime
  }

  /** A departure event on orange for a road with queued vehicles: the
      oldest one leaves if it wins the orange test; if it loses, nothing is
      scheduled for the road until a green reopens it. */
  function OnOrange(cfg: Config, sim: Sim, st: Intersection, name: string, d: Draws, open: seq<string>): (r: Result<Sim, SimError>)
    requires Parse(name).Some? && QueueAt(st, name) != []
    ensures cfg.orangeTime == 0.0 ==> r == Failure(DivisionByZero)
    ensures cfg.orangeTime != 0.0 && PassesOrange(st.clock - st.timeLastOrange, cfg.orangeTime, d.uniform) ==>
      r == Serve(sim, st, name, d, false, open)
    ensures cfg.orangeTime != 0.0 && !PassesOrange(st.clock - st.timeLastOrange, cfg.orangeTime, d.uniform) ==>
      r == Success(sim.(state := st))
  {
    if cfg.orangeTime == 0.0 then Failure(DivisionByZero)
    else if d.uniform > (st.clock - st.timeLastOrange) / cfg.orangeTime then Serve(sim, st, name, d, false, open)
    else Success(sim.(state := st))
  }

  /** A departure event at time `t` on road `name`. An open road with
      vehicles is served; on orange a queued vehicle passes if it wins the
      orange test; otherwise the event is dropped and nothing is scheduled. */
  function OnDeparture(cfg: Config, sim: Sim, open: seq<string>, t: real, name: string, d: Draws): (r: Result<Sim, SimError>)
    ensures Parse(name).None? ==> r == Failure(InvalidMovement(name))
    ensures Parse(name).Some? && QueueAt(sim.state, name) != [] && name in open ==>
      r == Serve(sim, AdvanceClock(sim.state, t), name, d, cfg.smart, open)
    ensures Parse(name).Some? && QueueAt(sim.state, name) != [] && name !in open && sim.state.light == 5 ==>
      r == OnOrange(cfg, sim, AdvanceClock(sim.state, t), name, d, open)
    ensures Parse(name).Some? && (QueueAt(sim.state, name) == [] || (name !in open && sim.state.light != 5)) ==>
      r == Success(sim.(state := AdvanceClock(sim.state, t)))
  {
    var st := AdvanceClock(sim.state, t);
    match GetRoadState(st, name)
    case Failure(e) => Failure(e)
    case Success(q) =>
      if q != [] && name in open then Serve(sim, st, name, d, cfg.smart, open)
      else if q != [] && st.light == 5 then
        OnOrange(cfg, sim, st, name, d, open)
      else Success(sim.(state := st))
  }

  // ---------------------------------------------------------------------
  // Light changes

  /** The green that follows an orange entered from light `prev`. */
  function NextGreen(prev: int): (r: int)
    ensures 1 <= prev <= 4 ==> r == prev % 4 + 1
    ensures 4 <= prev < 8 ==> r == 1
    ensures !(4 <= prev < 8) ==> r == prev + 1
  {
    if prev / 4 == 1 then 1 else prev + 1
  }

  /** Resolves the roads of a policy entry to movements, failing on the
      first unknown name as `get_road_state` would. */
  function ParseAll(names: seq<string>): (r: Result<seq<Movement>, SimError>)
    ensures r.Success? <==> forall i :: 0 <= i < |names| ==> Parse(names[i]).Some?
    ensures r.Success? ==> |r.value| == |names| && forall i :: 0 <= i < |names| ==> Name(r.value[i]) == names[i]
    decreases |names|
  {
    if names == [] then Success([])
    else
      assert forall i :: 1 <= i < |names| ==> names[i] == names[1..][i - 1];
      var m :- Need(Parse(names[0]), InvalidMovement(names[0]));
      var ms :- ParseAll(names[1..]);
      Success([m] + ms)
  }

  /** Vehicles queued on the named roads, `total_cars_open`. */
  function OpenLoad(st: Intersection, names: seq<string>): (r: Result<nat, SimError>)
    ensures r.Success? <==> ParseAll(names).Success?
    ensures r.Success? ==> r.value == Count(st.queues, ParseAll(names).value)
  {
    var ms :- ParseAll(names);
    Success(Count(st.queues, ms))
  }

  /** Python truthiness of a list of road names in the smart green test: the
      flag stays set only if every name is the empty string. */
  predicate NamesBlank(names: seq<string>)
  {
    forall i :: 0 <= i < |names| ==> names[i] == ""
  }

  /** The part of a cycle of length `cycle` that goes to roads holding
      `part` of the `whole` queued vehicles. */
  function CycleShare(cycle: real, part: nat, whole: nat): real
    requires whole > 0
  {
    cycle * (part as real / whole as real)
  }

  /** Smart timing of the next orange after green `st.light` begins. */
  function SmartOrange(cfg: Config, st: Intersection, c: Calendar): (r: Result<Calendar, SimError>)
    ensures r.Success? <==>
      && st.light in cfg.policy
      && ParseAll(cfg.policy[st.light]).Success?
      && (cfg.policy[st.light] == [] || Queued(st) > 0)
    ensures r.Success? ==> st.light in cfg.policy && OpenLoad(st, cfg.policy[st.light]).Success?
    ensures r.Success? ==>
      && |r.value.lightChanges| == |c.lightChanges| + 1
      && r.value.lightChanges[1..] == c.lightChanges
      && r.value.lightChanges[0].tag == 5
      && r.value.departures == c.departures && r.value.arrivals == c.arrivals
    ensures r.Success? && cfg.policy[st.light] != [] ==>
      && Queued(st) > 0
      && r.value.lightChanges[0].time
           == st.clock + CycleShare(SumReals(cfg.lightTimes), OpenLoad(st, cfg.policy[st.light]).value, Queued(st))
  {
    var open :- PolicyOf(cfg, st.light);
    var load :- OpenLoad(st, open);
    var empty := NamesBlank(open);
    var allEmpty := AllRoadsEmpty(st);
    if empty && !allEmpty then
      Success(ScheduleLightChange(c, Entry(st.clock, 5)))
    else if empty && allEmpty then
      Success(ScheduleLightChange(c, Entry(st.clock + 10.0, 5)))
    else
      var total := Queued(st);
      if total == 0 then Failure(DivisionByZero)
      else Success(ScheduleLightChange(c, Entry(st.clock + CycleShare(SumReals(cfg.lightTimes), load, total), 5)))
  }

  /** Fixed timing: green `p` lasts `light_times[p - 1]`. */
  function FixedOrange(cfg: Config, st: Intersection, c: Calendar): (r: Result<Calendar, SimError>)
    ensures r.Success? <==> PyIndex(|cfg.lightTimes|, st.light - 1).Some?
    ensures r.Success? ==>
      r.value == ScheduleLightChange(c, Entry(cfg.lightTimes[PyIndex(|cfg.lightTimes|, st.light - 1).value] + st.clock, 5))
  {
    var i :- Need(PyIndex(|cfg.lightTimes|, st.light - 1), LightTimeIndex(st.light - 1));
    Success(ScheduleLightChange(c, Entry(cfg.lightTimes[i] + st.clock, 5)))
  }

  /** A light change at time `t` to light `target`. Orange schedules the next
      green after the orange time; a green schedules the next orange (fixed
      or smart timing) and one kickoff departure per road it opens. */
  function OnLightChange(cfg: Config, sim: Sim, t: real, target: int, d: Draws): (r: Result<Sim, SimError>)
    ensures r.Success? ==>
      && r.value.state == ChangeLights(AdvanceClock(sim.state, t), target)
      && r.value.metrics == sim.metrics
      && r.value.calendar.arrivals == sim.calendar.arrivals
      && |r.value.calendar.lightChanges| == |sim.calendar.lightChanges| + 1
      && r.value.calendar.lightChanges[1..] == sim.calendar.lightChanges
    ensures target == 5 ==>
      r == Success(Sim(ChangeLights(AdvanceClock(sim.state, t), 5),
                       ScheduleLightChange(sim.calendar, Entry(cfg.orangeTime + t, NextGreen(sim.state.light))),
                       sim.metrics))
    ensures target != 5 && r.Success? ==>
      && target in cfg.policy
      && r.value.calendar.lightChanges[0].tag == 5
      && multiset(r.value.calendar.departures)
           == multiset(sim.calendar.departures) + multiset(Kickoffs(cfg.policy[target], t, d.exp))
      && (Sorted(sim.calendar.departures) ==> Sorted(r.value.calendar.departures))
    ensures target != 5 && !cfg.smart ==>
      (r.Success? <==> PyIndex(|cfg.lightTimes|, target - 1).Some? && target in cfg.policy)
    ensures target != 5 && !cfg.smart && r.Success? ==>
      r.value.calendar.lightChanges[0] == Entry(cfg.lightTimes[PyIndex(|cfg.lightTimes|, target - 1).value] + t, 5)
    ensures target != 5 && cfg.smart ==>
      (r.Success? <==> SmartOrange(cfg, ChangeLights(AdvanceClock(sim.state, t), target), sim.calendar).Success? && target in cfg.policy)
    ensures target != 5 && cfg.smart && r.Success? ==>
      r.value.calendar.lightChanges[0]
        == SmartOrange(cfg, ChangeLights(AdvanceClock(sim.state, t), target), sim.calendar).value.lightChanges[0]
  {
    var st := AdvanceClock(sim.state, t);
    var prev := st.light;
    if target == 5 then
      var st1 := ChangeLights(st, target);
      Success(Sim(st1, ScheduleLightChange(sim.calendar, Entry(cfg.orangeTime + st1.clock, NextGreen(prev))), sim.metrics))
    else
      var st1 := ChangeLights(st, target);
      var c1 :- if cfg.smart then SmartOrange(cfg, st1, sim.calendar) else FixedOrange(cfg, st1, sim.calendar);
      var open :- PolicyOf(cfg, target);
      var c2 := ScheduleDepartures(c1, Kickoffs(open, st1.clock, d.exp), true);
      Success(Sim(st1, c2, sim.metrics))
  }

  // ---------------------------------------------------------------------
  // One iteration of the loop

  /** Records `get_total_cars` after an event. */
  function Sample(sim: Sim): (r: Sim)
    ensures r.metrics.series == sim.metrics.series + [Queued(sim.state)]
    ensures r.state == sim.state && r.calendar == sim.calendar
    ensures r.metrics == sim.metrics.(series := r.metrics.series)
  {
    sim.(metrics := sim.metrics.(series := sim.metrics.series + [Queued(sim.state)]))
  }

  /** One pass of `main`'s loop: take the next event, read the roads the
      current light opens, dispatch, and sample the number of queued cars.
      The loop's clock assertion compares the clock with itself and is left
      out. */
  function Step(cfg: Config, sim: Sim, d: Draws): (r: Result<Sim, SimError>)
    ensures NextEvent(sim.calendar).None? ==> r == Failure(NoPendingEvent)
    ensures NextEvent(sim.calendar).Some? && sim.state.light !in cfg.policy ==> r == Failure(MissingPolicy(sim.state.light))
  {
    var next :- Need(NextEvent(sim.calendar), NoPendingEvent);
    var open :- PolicyOf(cfg, sim.state.light);
    var sim0 := sim.(calendar := next.1);
    var sim1 :- Handle(cfg, sim0, open, next.0, d);
    Success(Sample(sim1))
  }

  /** Dispatches one event to its handler. */
  function Handle(cfg: Config, sim: Sim, open: seq<string>, e: Event, d: Draws): (r: Result<Sim, SimError>)
    ensures r.Success? ==> r.value.state.clock == e.time
    ensures r.Success? ==> r.value.metrics.series == sim.metrics.series
  {
    match e
    case Arrive(t, name) => OnArrival(cfg, sim, open, t, name, d)
    case Depart(t, name) => OnDeparture(cfg, sim, open, t, name, d)
    case Switch(t, light) => OnLightChange(cfg, sim, t, light, d)
  }
}
