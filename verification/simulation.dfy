/** The per-event dispatch of `main`: arrivals, departures and light changes,
    with the random draws passed in rather than sampled. */
module Simulation {
  import opened Wrappers
  import opened Errors
  import opened Movements
  import opened States
  import opened Calendar

  /** The two rush-hour windows, `rush_hour[0]` to `rush_hour[3]`. */
  datatype RushHours = RushHours(start1: real, end1: real, start2: real, end2: real)

  /** One entry of the road dictionary: a road name and the scale `a` of its
      inter-arrival law `-0.5 + a * Beta(b, c)`. */
  datatype Road = Road(name: string, scale: real)

  /** The arguments of `main` that the engine reads. `policy` maps a light to
      the road names it opens; `roads` lists the road dictionary in its
      iteration order. */
  datatype Config = Config(
    policy: map<int, seq<string>>,
    maxTime: real,
    roads: seq<Road>,
    rush: RushHours,
    orangeTime: real,
    startingPolicy: int,
    lightTimes: seq<real>,
    smart: bool)

  /** The random draws one step consumes: Beta samples, exponential samples
      (the i-th one for the i-th departure scheduled in the step) and one
      uniform sample for the orange test. */
  datatype Draws = Draws(beta: nat -> real, exp: nat -> real, uniform: real)

  /** Draws within the ranges of their distributions. */
  ghost predicate InRange(d: Draws)
  {
    && (forall i: nat :: 0.0 <= d.beta(i) <= 1.0)
    && (forall i: nat :: 0.0 <= d.exp(i))
    && 0.0 <= d.uniform < 1.0
  }

  /** The running totals of `main`; `series` is `num_cars_in_system`. */
  datatype Metrics = Metrics(totalWait: real, totalCars: nat, roadWait: PerRoad<real>, roadCars: PerRoad<nat>, series: seq<nat>)

  const NoMetrics: Metrics := Metrics(0.0, 0, Uniform(0.0), Uniform(0), [])

  /** Everything a run carries from one event to the next. */
  datatype Sim = Sim(state: Intersection, calendar: Calendar, metrics: Metrics)

  function PolicyOf(cfg: Config, light: int): (r: Result<seq<string>, SimError>)
    ensures r.Success? <==> light in cfg.policy
    ensures r.Success? ==> r.value == cfg.policy[light]
    ensures r.Failure? ==> r.error == MissingPolicy(light)
  {
    if light in cfg.policy then Success(cfg.policy[light]) else Failure(MissingPolicy(light))
  }

  /** Looks a road name up in the road dictionary. */
  function ScaleOf(roads: seq<Road>, name: string): (r: Option<real>)
    ensures r.None? <==> forall i :: 0 <= i < |roads| ==> roads[i].name != name
    ensures r.Some? ==> exists i :: 0 <= i < |roads| && roads[i] == Road(name, r.value)
                                   && forall j :: 0 <= j < i ==> roads[j].name != name
    decreases |roads|
  {
    if roads == [] then None
    else if roads[0].name == name then Some(roads[0].scale)
    else
      var r := ScaleOf(roads[1..], name);
      assert forall i :: 1 <= i < |roads| ==> roads[i] == roads[1..][i - 1];
      r
  }

  /** Python's `sum` over a list. */
  function SumReals(s: seq<real>): real
    decreases |s|
  {
    if s == [] then 0.0 else s[0] + SumReals(s[1..])
  }

  /** Python list indexing of a list of length `n`: negative indices count
      from the end; anything else out of range is an IndexError. */
  function PyIndex(n: nat, i: int): (r: Option<nat>)
    ensures r.Some? <==> -(n as int) <= i < n
    ensures r.Some? ==> r.value < n && (r.value - i) % n == 0
  {
    if 0 <= i < n then Some(i) else if -(n as int) <= i < 0 then Some(n + i) else None
  }

  // ---------------------------------------------------------------------
  // Arrival process

  function Abs(x: real): real
  {
    if x < 0.0 then -x else x
  }

  /** Midpoint of a rush window. */
  function Mid(start: real, end: real): real
  {
    start + (end - start) / 2.0
  }

  /** Rush-hour rate multiplier: 2 at the window midpoint, one less for every
      two hours (7200 time units) away from it. */
  function Multiplier(c: real, mid: real): (r: real)
    ensures r <= 2.0
    ensures r == 2.0 <==> c == mid
  {
    2.0 - Abs(c - mid) / 7200.0
  }

  predicate InRush(rush: RushHours, c: real)
  {
    (rush.start1 < c < rush.end1) || (rush.start2 < c < rush.end2)
  }

  /** The multiplier in force at clock `c`: the first window containing `c`
      decides, and outside both windows the rate is unmodified. */
  function ActiveMultiplier(rush: RushHours, c: real): (r: real)
    ensures !InRush(rush, c) ==> r == 1.0
    ensures rush.start1 < c < rush.end1 ==> r == 2.0 - Abs(c - Mid(rush.start1, rush.end1)) / 7200.0
    ensures !(rush.start1 < c < rush.end1) && rush.start2 < c < rush.end2 ==>
      r == 2.0 - Abs(c - Mid(rush.start2, rush.end2)) / 7200.0
    ensures r <= 2.0
    ensures rush.start1 < c < rush.end1 && c == Mid(rush.start1, rush.end1) ==> r == 2.0
    ensures !(rush.start1 < c < rush.end1) && rush.start2 < c < rush.end2 && c == Mid(rush.start2, rush.end2) ==> r == 2.0
  {
    if rush.start1 < c < rush.end1 then Multiplier(c, Mid(rush.start1, rush.end1))
    else if rush.start2 < c < rush.end2 then Multiplier(c, Mid(rush.start2, rush.end2))
    else 1.0
  }

  /** Python's `min(x, 1)`. */
  function CapAtOne(x: real): (r: real)
    ensures r <= 1.0 && r <= x
    ensures r == x || r == 1.0
  {
    if x <= 1.0 then x else 1.0
  }

  /** Time from the clock `c` to the next arrival on a road of scale `scale`
      given the Beta sample `beta`: `min(-0.5 + scale / multiplier * beta, 1)`
      inside a rush window, `min(-0.5 + scale * beta, 1)` outside. */
  function ArrivalGap(rush: RushHours, c: real, scale: real, beta: real): (r: Result<real, SimError>)
    ensures r.Success? ==> r.value <= 1.0
    ensures r.Failure? <==> InRush(rush, c) && ActiveMultiplier(rush, c) == 0.0
    ensures r.Failure? ==> r.error == DivisionByZero
    ensures !InRush(rush, c) ==> r == Success(CapAtOne(-0.5 + scale * beta))
    ensures InRush(rush, c) && ActiveMultiplier(rush, c) != 0.0 ==>
      r == Success(CapAtOne(-0.5 + scale / ActiveMultiplier(rush, c) * beta))
  {
    ScaledGap(InRush(rush, c), ActiveMultiplier(rush, c), scale, beta)
  }

  /** The gap when a window with multiplier `m` is in force (`inRush`) or
      when none is. */
  function ScaledGap(inRush: bool, m: real, scale: real, beta: real): Result<real, SimError>
  {
    if inRush then
      if m == 0.0 then Failure(DivisionByZero) else Success(CapAtOne(-0.5 + scale / m * beta))
    else
      Success(CapAtOne(-0.5 + scale * beta))
  }

  /** Absolute time of the road's next arrival after one at clock `c`. */
  function NextArrival(cfg: Config, c: real, name: string, beta: real): (r: Result<real, SimError>)
    ensures r.Success? ==> r.value <= c + 1.0
    ensures ScaleOf(cfg.roads, name).None? ==> r == Failure(MissingRoad(name))
    ensures ScaleOf(cfg.roads, name).Some? ==>
      var gap := ArrivalGap(cfg.rush, c, ScaleOf(cfg.roads, name).value, beta);
      (r.Success? <==> gap.Success?) && (r.Success? ==> r.value == c + gap.value)
  {
    var scale :- Need(ScaleOf(cfg.roads, name), MissingRoad(name));
    var gap :- ArrivalGap(cfg.rush, c, scale, beta);
    Success(gap + c)
  }

  // ---------------------------------------------------------------------
  // Initialisation

  /** The first arrival of every road, `-0.5 + scale * beta(i)` for the i-th. */
  function FirstArrivals(roads: seq<Road>, beta: nat -> real): (r: seq<Entry<string>>)
    ensures |r| == |roads|
    ensures forall i :: 0 <= i < |roads| ==> r[i] == Entry(-0.5 + roads[i].scale * beta(i), roads[i].name)
  {
    seq(|roads|, i requires 0 <= i < |roads| => Entry(-0.5 + roads[i].scale * beta(i), roads[i].name))
  }

  /** One departure per opened road, the i-th at `exp(i) + base`. */
  function Kickoffs(names: seq<string>, base: real, exp: nat -> real): (r: seq<Entry<string>>)
    ensures |r| == |names|
    ensures forall i :: 0 <= i < |names| ==> r[i] == Entry(exp(i) + base, names[i])
  {
    seq(|names|, i requires 0 <= i < |names| => Entry(exp(i) + base, names[i]))
  }

  /** With draws in range, each road of non-negative scale first sees a
      vehicle between -0.5 and `scale - 0.5`. */
  lemma FirstArrivalsInWindow(roads: seq<Road>, d: Draws)
    requires InRange(d)
    requires forall i :: 0 <= i < |roads| ==> 0.0 <= roads[i].scale
    ensures forall i :: 0 <= i < |roads| ==>
      -0.5 <= FirstArrivals(roads, d.beta)[i].time <= -0.5 + roads[i].scale
  {
    forall i | 0 <= i < |roads|
      ensures -0.5 <= FirstArrivals(roads, d.beta)[i].time <= -0.5 + roads[i].scale
    {
      assert FirstArrivals(roads, d.beta)[i].time == -0.5 + roads[i].scale * d.beta(i);
      ScaledDraw(roads[i].scale, d.beta(i));
      assert roads[i].scale * d.beta(i) <= roads[i].scale;
    }
  }

  /** A draw in [0, 1] scales a non-negative value to between zero and it. */
  lemma ScaledDraw(a: real, b: real)
    requires 0.0 <= a && 0.0 <= b <= 1.0
    ensures 0.0 <= a * b <= a
  {
    assert a - a * b == a * (1.0 - b);
  }

  /** With draws in range no kickoff departure is due before its base time. */
  lemma KickoffsNotBefore(names: seq<string>, base: real, d: Draws)
    requires InRange(d)
    ensures forall i :: 0 <= i < |names| ==> base <= Kickoffs(names, base, d.exp)[i].time
  {
  }

  /** `schedule_arrival` for each entry in turn. */
  function ScheduleArrivals(c: Calendar, es: seq<Entry<string>>): (r: Calendar)
    ensures multiset(r.arrivals) == multiset(c.arrivals) + multiset(es)
    ensures Sorted(c.arrivals) || es != [] ==> Sorted(r.arrivals)
    ensures r.departures == c.departures && r.lightChanges == c.lightChanges
    decreases |es|
  {
    if es == [] then c
    else
      assert es == [es[0]] + es[1..];
      ScheduleArrivals(ScheduleArrival(c, es[0]), es[1..])
  }

  /** `schedule_departure` for each entry in turn, followed each time by
      `sort_departures` when `resort` holds. */
  function ScheduleDepartures(c: Calendar, es: seq<Entry<string>>, resort: bool): (r: Calendar)
    ensures multiset(r.departures) == multiset(c.departures) + multiset(es)
    ensures Sorted(c.departures) || es != [] ==> Sorted(r.departures)
    ensures r.arrivals == c.arrivals && r.lightChanges == c.lightChanges
    decreases |es|
  {
    if es == [] then c
    else
      assert es == [es[0]] + es[1..];
      var c1 := ScheduleDeparture(c, es[0]);
      ScheduleDepartures(if resort then SortDepartures(c1) else c1, es[1..], resort)
  }

  /** `main` up to its loop, with `init_simulation`: the starting light, one
      arrival per road, one departure per road the starting light opens, and
      an orange at time 20 whatever the light times. */
  function Init(cfg: Config, d: Draws): (r: Result<Sim, SimError>)
    ensures r.Success? <==>
      PyIndex(|cfg.lightTimes|, cfg.startingPolicy - 1).Some? && cfg.startingPolicy in cfg.policy
    ensures r.Success? ==>
      var c := r.value.calendar;
      && c.lightChanges == [Entry(20.0, 5)]
      && Ordered(c)
      && multiset(c.arrivals) == multiset(FirstArrivals(cfg.roads, d.beta))
      && multiset(c.departures) == multiset(Kickoffs(cfg.policy[cfg.startingPolicy], 0.0, d.exp))
    ensures r.Success? ==>
      && r.value.state == Initial.(light := cfg.startingPolicy)
      && r.value.metrics == NoMetrics
  {
    var st := ChangeLights(Initial, cfg.startingPolicy);
    var _ :- Need(PyIndex(|cfg.lightTimes|, cfg.startingPolicy - 1), LightTimeIndex(cfg.startingPolicy - 1));
    var c1 := ScheduleArrivals(NoEvents, FirstArrivals(cfg.roads, d.beta));
    var open :- PolicyOf(cfg, cfg.startingPolicy);
    var c2 := ScheduleDepartures(c1, Kickoffs(open, 0.0, d.exp), false);
    var c3 := ScheduleLightChange(c2, Entry(20.0, 5));
    Success(Sim(st, SortDepartures(SortArrivals(c3)), NoMetrics))
  }
}
