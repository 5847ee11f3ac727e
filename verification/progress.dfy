/** When `main`'s loop cannot raise. Under a configuration like the one the
    program's own entry point passes (greens open movements, orange opens
    movements or only names that are neither movements nor roads, such as
    `['']`), every pending event can be processed, except that a smart green
    with nothing queued divides by zero; so a fixed-timing run proceeds until
    the horizon or until its draws run out. */
module Progress {
  import opened Wrappers
  import opened Errors
  import opened Movements
  import opened States
  import opened Calendar
  import opened Simulation
  import opened Dispatch
  import opened Properties
  import opened Lights
  import opened Runs

  /** Each green has a policy entry naming known movements. */
  predicate GreensOpenMovements(cfg: Config)
  {
    forall p :: 1 <= p <= 4 ==> p in cfg.policy && ParseAll(cfg.policy[p]).Success?
  }

  /** A road list the arrival and departure handlers can test membership in:
      either every name is a movement, or no name is a movement or a road of
      the table (the program gives orange `['']`). */
  predicate OpenUsable(cfg: Config, open: seq<string>)
  {
    || ParseAll(open).Success?
    || forall i :: 0 <= i < |open| ==> Parse(open[i]).None? && ScaleOf(cfg.roads, open[i]).None?
  }

  /** Both rush windows last at most four hours. */
  predicate RushBounded(rush: RushHours)
  {
    && rush.end1 - rush.start1 <= 14400.0
    && rush.end2 - rush.start2 <= 14400.0
  }

  /** A configuration the loop can always work with: the greens open
      movements, orange has a usable entry, there is a light time for each
      green, the orange time is not zero, and the rush windows are bounded. */
  predicate WellFormed(cfg: Config)
  {
    && GreensOpenMovements(cfg)
    && 5 in cfg.policy && OpenUsable(cfg, cfg.policy[5])
    && 4 <= |cfg.lightTimes|
    && cfg.orangeTime != 0.0
    && RushBounded(cfg.rush)
  }

  /** A state the loop can take its next event from: the light is a green or
      orange, departures name movements, arrivals name roads of the road
      table, and light changes target a green or orange. */
  predicate Ready(cfg: Config, sim: Sim)
  {
    && 1 <= sim.state.light <= 5
    && (forall e | e in sim.calendar.departures :: Parse(e.tag).Some?)
    && (forall e | e in sim.calendar.arrivals :: ScaleOf(cfg.roads, e.tag).Some?)
    && (forall e | e in sim.calendar.lightChanges :: 1 <= e.tag <= 5)
  }

  /** The one way a pending event of a ready state can fail: a smart green
      that opens some road begins while no vehicle is queued. */
  predicate IdleSmartGreen(cfg: Config, sim: Sim)
    requires NextEvent(sim.calendar).Some?
  {
    && cfg.smart
    && Queued(sim.state) == 0
    && IdleTarget(cfg, NextEvent(sim.calendar).value.0)
  }

  /** A change to a green whose entry opens some road. */
  predicate IdleTarget(cfg: Config, e: Event)
  {
    && e.Switch?
    && e.light != 5
    && e.light in cfg.policy
    && cfg.policy[e.light] != []
  }

  /** The gap to a road's next arrival exists whenever the rush windows last
      at most four hours. */
  lemma GapDefined(rush: RushHours, t: real, scale: real, beta: real)
    requires RushBounded(rush)
    ensures ArrivalGap(rush, t, scale, beta).Success?
  {
    if InRush(rush, t) {
      RushMultiplierAtLeastOne(rush, t);
    }
  }

  /** An event a ready state can hand to its handler: an arrival on a road
      of the table, a departure of a movement, or a change to a green or
      orange. */
  predicate EventReady(cfg: Config, e: Event)
  {
    match e
    case Arrive(_, name) => ScaleOf(cfg.roads, name).Some?
    case Depart(_, name) => Parse(name).Some?
    case Switch(_, target) => 1 <= target <= 5
  }

  /** Taking the next event of a ready state yields a ready event and leaves
      the rest of the calendar ready. */
  lemma TakeReady(cfg: Config, sim: Sim)
    requires Ready(cfg, sim) && NextEvent(sim.calendar).Some?
    ensures EventReady(cfg, NextEvent(sim.calendar).value.0)
    ensures Ready(cfg, sim.(calendar := NextEvent(sim.calendar).value.1))
  {
    var c := sim.calendar;
    var next := NextEvent(c).value;
    assert forall e | e in next.1.arrivals :: e in c.arrivals;
    assert forall e | e in next.1.departures :: e in c.departures;
    assert forall e | e in next.1.lightChanges :: e in c.lightChanges;
    match next.0
    case Arrive(_, _) => assert c.arrivals[0] in c.arrivals;
    case Depart(_, _) => assert c.departures[0] in c.departures;
    case Switch(_, _) => assert c.lightChanges[0] in c.lightChanges;
  }

  /** Progress: a ready state with a pending event can always process it,
      unless it is a smart green opening some road with nothing queued. */
  lemma StepProgress(cfg: Config, sim: Sim, d: Draws)
    requires WellFormed(cfg) && Ready(cfg, sim)
    requires NextEvent(sim.calendar).Some?
    ensures Step(cfg, sim, d).Success? || IdleSmartGreen(cfg, sim)
  {
    var next := NextEvent(sim.calendar).value;
    TakeReady(cfg, sim);
    if !IdleSmartGreen(cfg, sim) {
      var sim0 := sim.(calendar := next.1);
      WellFormedCanHandle(cfg, sim0, next.0);
      HandleProgress(cfg, sim0, cfg.policy[sim.state.light], next.0, d);
    }
  }

  /** The exception of `StepProgress` is exact: a smart green that opens some
      road, beginning while nothing is queued, fails (main.py:232-235). */
  lemma IdleSmartGreenFails(cfg: Config, sim: Sim, d: Draws)
    requires WellFormed(cfg) && Ready(cfg, sim)
    requires NextEvent(sim.calendar).Some? && IdleSmartGreen(cfg, sim)
    ensures Step(cfg, sim, d) == Failure(DivisionByZero)
  {
    var next := NextEvent(sim.calendar).value;
    OpenUsableAt(cfg, sim.state.light);
    var target := next.0.light;
    assert ParseAll(cfg.policy[target]).Success?;
    var st := ChangeLights(AdvanceClock(sim.state, next.0.time), target);
    assert Queued(st) == Queued(sim.state);
    assert SmartOrange(cfg, st, sim.calendar) == Failure(DivisionByZero);
  }

  /** Under a usable configuration, a state on a green or orange has what any
      ready event needs, except a smart green opening some road with nothing
      queued. */
  lemma WellFormedCanHandle(cfg: Config, sim: Sim, e: Event)
    requires WellFormed(cfg) && 1 <= sim.state.light <= 5 && EventReady(cfg, e)
    requires !(cfg.smart && Queued(sim.state) == 0 && IdleTarget(cfg, e))
    ensures CanHandle(cfg, sim, cfg.policy[sim.state.light], e)
  {
    OpenUsableAt(cfg, sim.state.light);
    match e
    case Arrive(_, _) =>
    case Depart(_, _) =>
    case Switch(_, target) =>
      if target != 5 {
        assert target in cfg.policy && ParseAll(cfg.policy[target]).Success?;
        assert PyIndex(|cfg.lightTimes|, target - 1).Some?;
      }
  }

  /** Under a usable configuration the roads any green or orange opens form
      a usable road list. */
  lemma OpenUsableAt(cfg: Config, p: int)
    requires WellFormed(cfg) && 1 <= p <= 5
    ensures p in cfg.policy && OpenUsable(cfg, cfg.policy[p])
  {
    if p != 5 {
      assert ParseAll(cfg.policy[p]).Success?;
    }
  }

  /** What handling event `e` needs: an arrival needs bounded rush windows,
      a departure during orange a non-zero orange time, both a usable road
      list, and a change to a green that green's entry to name movements, a
      light time in fixed timing and, in smart timing, a queued vehicle
      unless the entry opens no road. */
  predicate CanHandle(cfg: Config, sim: Sim, open: seq<string>, e: Event)
  {
    match e
    case Arrive(_, name) =>
      ScaleOf(cfg.roads, name).Some? && RushBounded(cfg.rush) && OpenUsable(cfg, open)
    case Depart(_, name) =>
      Parse(name).Some? && OpenUsable(cfg, open) && (sim.state.light == 5 ==> cfg.orangeTime != 0.0)
    case Switch(_, target) =>
      && 1 <= target <= 5
      && (target != 5 ==>
            && target in cfg.policy && ParseAll(cfg.policy[target]).Success?
            && (!cfg.smart ==> PyIndex(|cfg.lightTimes|, target - 1).Some?)
            && (cfg.smart && cfg.policy[target] != [] ==> Queued(sim.state) != 0))
  }

  /** An event is handled without error whenever it has what it needs. */
  lemma HandleProgress(cfg: Config, sim: Sim, open: seq<string>, e: Event, d: Draws)
    requires CanHandle(cfg, sim, open, e)
    ensures Handle(cfg, sim, open, e, d).Success?
  {
    match e
    case Arrive(t, name) => ArrivalProgress(cfg, sim, open, t, name, d);
    case Depart(t, name) => DepartureProgress(cfg, sim, open, t, name, d);
    case Switch(t, target) => LightChangeProgress(cfg, sim, t, target, d);
  }

  /** An arrival on a road of the table is always processed. */
  lemma ArrivalProgress(cfg: Config, sim: Sim, open: seq<string>, t: real, name: string, d: Draws)
    requires RushBounded(cfg.rush) && OpenUsable(cfg, open)
    requires ScaleOf(cfg.roads, name).Some?
    ensures OnArrival(cfg, sim, open, t, name, d).Success?
  {
    GapDefined(cfg.rush, t, ScaleOf(cfg.roads, name).value, d.beta(0));
  }

  /** A departure naming a movement is always processed, given a non-zero
      orange time during orange. */
  lemma DepartureProgress(cfg: Config, sim: Sim, open: seq<string>, t: real, name: string, d: Draws)
    requires OpenUsable(cfg, open) && (sim.state.light == 5 ==> cfg.orangeTime != 0.0)
    requires Parse(name).Some?
    ensures OnDeparture(cfg, sim, open, t, name, d).Success?
  {
    var st := AdvanceClock(sim.state, t);
    if QueueAt(sim.state, name) != [] && name in open {
      var i :| 0 <= i < |open| && open[i] == name;
      assert Parse(open[i]).Some?;
      assert ParseAll(open).Success?;
      var st1 := Departure(st, name).value.1;
      assert AnyEmpty(st1, open).Success?;
    }
  }

  /** A change to orange is always processed. A change to a green is
      processed when its entry names movements and, in fixed timing, it has
      a light time, or, in smart timing, it opens no road or some vehicle is
      queued. */
  lemma LightChangeProgress(cfg: Config, sim: Sim, t: real, target: int, d: Draws)
    requires 1 <= target <= 5
    requires target != 5 ==> target in cfg.policy && ParseAll(cfg.policy[target]).Success?
    requires target != 5 && !cfg.smart ==> PyIndex(|cfg.lightTimes|, target - 1).Some?
    requires target != 5 && cfg.smart && target in cfg.policy && cfg.policy[target] != [] ==> Queued(sim.state) != 0
    ensures OnLightChange(cfg, sim, t, target, d).Success?
  {
    if target != 5 {
      var st := ChangeLights(AdvanceClock(sim.state, t), target);
      assert Queued(st) == Queued(sim.state);
      if cfg.smart {
        assert SmartOrange(cfg, st, sim.calendar).Success?;
      }
    }
  }

  /** Processing an event keeps the state ready. */
  lemma StepKeepsReady(cfg: Config, sim: Sim, d: Draws)
    requires GreensOpenMovements(cfg) && Ready(cfg, sim)
    requires Step(cfg, sim, d).Success?
    ensures Ready(cfg, Step(cfg, sim, d).value)
  {
    var next := NextEvent(sim.calendar).value;
    var open := cfg.policy[sim.state.light];
    var sim0 := sim.(calendar := next.1);
    var sim1 := Handle(cfg, sim0, open, next.0, d).value;
    TakeReady(cfg, sim);
    HandleKeepsReady(cfg, sim0, open, next.0, d, sim1);
    assert Step(cfg, sim, d).value == Sample(sim1);
  }

  /** Handling a ready event keeps the state ready. */
  lemma HandleKeepsReady(cfg: Config, sim: Sim, open: seq<string>, e: Event, d: Draws, r: Sim)
    requires Ready(cfg, sim) && EventReady(cfg, e)
    requires e.Switch? && e.light != 5 ==> e.light in cfg.policy && ParseAll(cfg.policy[e.light]).Success?
    requires Handle(cfg, sim, open, e, d) == Success(r)
    ensures Ready(cfg, r)
  {
    match e
    case Arrive(t, name) => ArrivalKeepsReady(cfg, sim, open, t, name, d);
    case Depart(t, name) => DepartureKeepsReady(cfg, sim, open, t, name, d, r);
    case Switch(t, target) => LightChangeKeepsReady(cfg, sim, t, target, d, r);
  }

  /** An arrival on a road of the table keeps the state ready. */
  lemma ArrivalKeepsReady(cfg: Config, sim: Sim, open: seq<string>, t: real, name: string, d: Draws)
    requires ScaleOf(cfg.roads, name).Some?
    requires Ready(cfg, sim)
    requires OnArrival(cfg, sim, open, t, name, d).Success?
    ensures Ready(cfg, OnArrival(cfg, sim, open, t, name, d).value)
  {
    var r := OnArrival(cfg, sim, open, t, name, d).value;
    var entry := Entry(NextArrival(cfg, t, name, d.beta(0)).value, name);
    assert multiset(r.calendar.arrivals) == multiset(sim.calendar.arrivals) + multiset{entry};
    forall e | e in r.calendar.arrivals
      ensures ScaleOf(cfg.roads, e.tag).Some?
    {
      assert e in multiset(r.calendar.arrivals);
    }
  }

  /** Scheduling a departure of a movement keeps departures naming
      movements. */
  lemma ScheduleNamesMovements(s: seq<Entry<string>>, e: Entry<string>)
    requires forall x | x in s :: Parse(x.tag).Some?
    requires Parse(e.tag).Some?
    ensures forall x | x in Schedule(s, e) :: Parse(x.tag).Some?
  {
    forall x | x in Schedule(s, e)
      ensures Parse(x.tag).Some?
    {
      assert x in multiset(Schedule(s, e));
    }
  }

  /** Serving a vehicle keeps the state ready. */
  lemma ServeKeepsReady(cfg: Config, sim: Sim, st: Intersection, name: string, d: Draws, preempt: bool, open: seq<string>, r: Sim)
    requires Parse(name).Some? && QueueAt(st, name) != []
    requires Ready(cfg, sim) && st.light == sim.state.light
    requires Serve(sim, st, name, d, preempt, open) == Success(r)
    ensures Ready(cfg, r)
  {
    ScheduleNamesMovements(sim.calendar.departures, Entry(d.exp(0) + st.clock, name));
    ServeLightChanges(sim, st, name, d, preempt, open, r);
    ReadyFrom(cfg, sim, r);
  }

  /** A state is ready when it keeps a ready state's light and arrivals, its
      departures name movements, and its light changes are the old ones or
      a single orange. */
  lemma ReadyFrom(cfg: Config, sim: Sim, r: Sim)
    requires Ready(cfg, sim)
    requires 1 <= r.state.light <= 5 && r.calendar.arrivals == sim.calendar.arrivals
    requires forall x | x in r.calendar.departures :: Parse(x.tag).Some?
    requires || r.calendar.lightChanges == sim.calendar.lightChanges
             || r.calendar.lightChanges == [Entry(r.state.clock, 5)]
    ensures Ready(cfg, r)
  {
  }

  /** Serving a vehicle leaves the pending light changes as they were, or
      replaces them by one orange. */
  lemma ServeLightChanges(sim: Sim, st: Intersection, name: string, d: Draws, preempt: bool, open: seq<string>, r: Sim)
    requires Parse(name).Some? && QueueAt(st, name) != []
    requires Serve(sim, st, name, d, preempt, open) == Success(r)
    ensures || r.calendar.lightChanges == sim.calendar.lightChanges
            || r.calendar.lightChanges == [Entry(r.state.clock, 5)]
  {
    if preempt {
      var c := r.calendar.(departures := sim.calendar.departures);
      if AnyEmpty(r.state, open).value {
        assert c == ClearLightChange(sim.calendar).(lightChanges := [Entry(r.state.clock, 5)]);
      } else {
        assert c == sim.calendar;
      }
    }
  }

  /** A departure keeps the state ready. */
  lemma DepartureKeepsReady(cfg: Config, sim: Sim, open: seq<string>, t: real, name: string, d: Draws, r: Sim)
    requires Parse(name).Some?
    requires Ready(cfg, sim)
    requires OnDeparture(cfg, sim, open, t, name, d) == Success(r)
    ensures Ready(cfg, r)
  {
    var st := AdvanceClock(sim.state, t);
    assert QueueAt(st, name) == QueueAt(sim.state, name);
    if QueueAt(st, name) != [] && name in open {
      ServeKeepsReady(cfg, sim, st, name, d, cfg.smart, open, r);
    } else if QueueAt(st, name) != [] && sim.state.light == 5 {
      OrangeKeepsReady(cfg, sim, st, name, d, open, r);
    } else {
      ReadyFrom(cfg, sim, r);
    }
  }

  /** The orange test keeps the state ready, whether the vehicle passes or
      not. */
  lemma OrangeKeepsReady(cfg: Config, sim: Sim, st: Intersection, name: string, d: Draws, open: seq<string>, r: Sim)
    requires Parse(name).Some? && QueueAt(st, name) != []
    requires Ready(cfg, sim) && st.light == sim.state.light
    requires OnOrange(cfg, sim, st, name, d, open) == Success(r)
    ensures Ready(cfg, r)
  {
    if PassesOrange(st.clock - st.timeLastOrange, cfg.orangeTime, d.uniform) {
      ServeKeepsReady(cfg, sim, st, name, d, false, open, r);
    } else {
      ReadyFrom(cfg, sim, r);
    }
  }

  /** A light change to a green or orange keeps the state ready. */
  lemma LightChangeKeepsReady(cfg: Config, sim: Sim, t: real, target: int, d: Draws, r: Sim)
    requires Ready(cfg, sim) && 1 <= target <= 5
    requires target != 5 ==> target in cfg.policy && ParseAll(cfg.policy[target]).Success?
    requires OnLightChange(cfg, sim, t, target, d) == Success(r)
    ensures Ready(cfg, r)
  {
    if target == 5 {
      assert r.calendar.departures == sim.calendar.departures;
      assert r.calendar.lightChanges[0].tag == NextGreen(sim.state.light);
    } else {
      KickoffsKeepNames(cfg.policy[target], t, d.exp, sim.calendar.departures, r.calendar.departures);
    }
    ReadyAfterChange(cfg, sim, r);
  }

  /** A state is ready when it keeps a ready state's arrivals, is on a green
      or orange, its departures name movements, and it has one more pending
      light change, to a green or orange, in front of the old ones. */
  lemma ReadyAfterChange(cfg: Config, sim: Sim, r: Sim)
    requires Ready(cfg, sim)
    requires 1 <= r.state.light <= 5 && r.calendar.arrivals == sim.calendar.arrivals
    requires forall x | x in r.calendar.departures :: Parse(x.tag).Some?
    requires |r.calendar.lightChanges| == |sim.calendar.lightChanges| + 1
    requires r.calendar.lightChanges[1..] == sim.calendar.lightChanges
    requires 1 <= r.calendar.lightChanges[0].tag <= 5
    ensures Ready(cfg, r)
  {
    assert r.calendar.lightChanges == [r.calendar.lightChanges[0]] + sim.calendar.lightChanges;
  }

  /** Adding the kickoffs of a policy entry naming movements to departures
      naming movements keeps them naming movements. */
  lemma KickoffsKeepNames(names: seq<string>, base: real, exp: nat -> real, s: seq<Entry<string>>, s': seq<Entry<string>>)
    requires ParseAll(names).Success?
    requires forall x | x in s :: Parse(x.tag).Some?
    requires multiset(s') == multiset(s) + multiset(Kickoffs(names, base, exp))
    ensures forall x | x in s' :: Parse(x.tag).Some?
  {
    var ks := Kickoffs(names, base, exp);
    forall e | e in s'
      ensures Parse(e.tag).Some?
    {
      assert e in multiset(s');
      if e !in s {
        assert e in multiset(ks);
        var i :| 0 <= i < |ks| && ks[i] == e;
        assert Parse(names[i]).Some?;
      }
    }
  }

  /** `init_simulation` starting on a green or orange whose entry names
      movements starts a ready state. */
  lemma InitReady(cfg: Config, d: Draws)
    requires 1 <= cfg.startingPolicy <= 5
    requires Init(cfg, d).Success?
    requires ParseAll(cfg.policy[cfg.startingPolicy]).Success?
    ensures Ready(cfg, Init(cfg, d).value)
  {
    var sim := Init(cfg, d).value;
    var fs := FirstArrivals(cfg.roads, d.beta);
    var ks := Kickoffs(cfg.policy[cfg.startingPolicy], 0.0, d.exp);
    assert multiset(sim.calendar.arrivals) == multiset(fs);
    assert multiset(sim.calendar.departures) == multiset(ks);
    assert sim.calendar.lightChanges == [Entry(20.0, 5)];
    assert sim.state.light == cfg.startingPolicy;
    ArrivalsNameRoads(cfg.roads, d.beta, sim.calendar.arrivals);
    KickoffsNameMovements(cfg.policy[cfg.startingPolicy], 0.0, d.exp, sim.calendar.departures);
  }

  /** A stream holding the first arrivals names only roads of the table. */
  lemma ArrivalsNameRoads(roads: seq<Road>, beta: nat -> real, s: seq<Entry<string>>)
    requires multiset(s) == multiset(FirstArrivals(roads, beta))
    ensures forall e | e in s :: ScaleOf(roads, e.tag).Some?
  {
    var fs := FirstArrivals(roads, beta);
    forall e | e in s
      ensures ScaleOf(roads, e.tag).Some?
    {
      assert e in multiset(fs);
      var i :| 0 <= i < |fs| && fs[i] == e;
      assert roads[i].name == e.tag;
    }
  }

  /** A stream holding the kickoffs of known movements names only
      movements. */
  lemma KickoffsNameMovements(names: seq<string>, base: real, exp: nat -> real, s: seq<Entry<string>>)
    requires ParseAll(names).Success?
    requires multiset(s) == multiset(Kickoffs(names, base, exp))
    ensures forall e | e in s :: Parse(e.tag).Some?
  {
    var ks := Kickoffs(names, base, exp);
    forall e | e in s
      ensures Parse(e.tag).Some?
    {
      assert e in multiset(ks);
      var i :| 0 <= i < |ks| && ks[i] == e;
      assert Parse(names[i]).Some?;
    }
  }

  /** A fixed-timing run from a ready state never raises: it reaches the
      horizon or uses up its draws. */
  lemma {:induction false} RunProgress(cfg: Config, sim: Sim, draws: seq<Draws>)
    requires WellFormed(cfg) && !cfg.smart
    requires Ready(cfg, sim) && CalendarInvariant(sim.calendar)
    ensures Run(cfg, sim, draws).Success?
    decreases |draws|
  {
    if !(cfg.maxTime <= sim.state.clock || draws == []) {
      StepProgress(cfg, sim, draws[0]);
      StepKeepsReady(cfg, sim, draws[0]);
      StepKeepsCalendarInvariant(cfg, sim, draws[0]);
      RunProgress(cfg, Step(cfg, sim, draws[0]).value, draws[1..]);
    }
  }

  /** `main` with a usable fixed-timing configuration starting on a green
      initialises and runs without raising. */
  lemma MainProgress(cfg: Config, d: Draws, draws: seq<Draws>)
    requires WellFormed(cfg) && !cfg.smart && 1 <= cfg.startingPolicy <= 4
    ensures Init(cfg, d).Success?
    ensures Run(cfg, Init(cfg, d).value, draws).Success?
  {
    InitReady(cfg, d);
    InitCalendarInvariant(cfg, d);
    RunProgress(cfg, Init(cfg, d).value, draws);
  }

  /** The road table of the program's entry point, in dictionary order, with
      each road's scale `a`. */
  function ProgramRoads(): seq<Road>
  {
    [Road("NS", 66.0), Road("NL", 66.0), Road("ES", 72.0), Road("EL", 72.0),
     Road("SS", 123.0), Road("SL", 123.0), Road("WS", 69.0), Road("WL", 69.0)]
  }

  /** The light policy of the program's entry point; orange opens `['']`. */
  function ProgramPolicy(): map<int, seq<string>>
  {
    map[1 := ["SL", "NL"], 2 := ["NS", "SS"], 3 := ["ES", "WS"], 4 := ["WL", "EL"], 5 := [""]]
  }

  /** The configuration the program's entry point and its batch driver pass
      to `main`, for light times `lightTimes` and timing mode `smart`. */
  function ProgramConfig(lightTimes: seq<real>, smart: bool): Config
  {
    Config(ProgramPolicy(), 86400.0, ProgramRoads(), RushHours(21600.0, 36000.0, 54000.0, 68400.0),
           4.0, 1, lightTimes, smart)
  }

  /** The program's own configuration is usable, although its orange entry
      names no movement. */
  lemma ProgramConfigWellFormed(lightTimes: seq<real>, smart: bool)
    requires 4 <= |lightTimes|
    ensures WellFormed(ProgramConfig(lightTimes, smart))
    ensures ParseAll(ProgramPolicy()[5]).Failure?
  {
    ProgramGreens(ProgramConfig(lightTimes, smart));
    ProgramOrange(ProgramConfig(lightTimes, smart));
  }

  /** Every green of the program's policy opens two movements. */
  lemma ProgramGreens(cfg: Config)
    requires cfg.policy == ProgramPolicy()
    ensures GreensOpenMovements(cfg)
  {
    forall p | 1 <= p <= 4
      ensures p in cfg.policy && ParseAll(cfg.policy[p]).Success?
    {
      var names := cfg.policy[p];
      assert |names| == 2 && Parse(names[0]).Some? && Parse(names[1]).Some?;
    }
  }

  /** The program's orange entry `['']` names neither a movement nor a road
      of its table. */
  lemma ProgramOrange(cfg: Config)
    requires cfg.policy == ProgramPolicy() && cfg.roads == ProgramRoads()
    ensures 5 in cfg.policy && OpenUsable(cfg, cfg.policy[5])
    ensures ParseAll(cfg.policy[5]).Failure?
  {
    assert cfg.policy[5] == [""];
    assert forall i :: 0 <= i < |cfg.roads| ==> |cfg.roads[i].name| == 2;
  }

  /** A fixed-timing run of the program's own configuration never raises. */
  lemma ProgramMainProgress(lightTimes: seq<real>, d: Draws, draws: seq<Draws>)
    requires 4 <= |lightTimes|
    ensures Init(ProgramConfig(lightTimes, false), d).Success?
    ensures Run(ProgramConfig(lightTimes, false), Init(ProgramConfig(lightTimes, false), d).value, draws).Success?
  {
    ProgramConfigWellFormed(lightTimes, false);
    MainProgress(ProgramConfig(lightTimes, false), d, draws);
  }
}
