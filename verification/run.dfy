/** `main` as a whole: initialisation, the event loop under a finite supply
    of draws, the settlement of the vehicles still queued at the horizon,
    and the averages it returns. */
module Runs {
  import opened Wrappers
  import opened Errors
  import opened Movements
  import opened States
  import opened Settlement
  import opened Calendar
  import opened Simulation
  import opened Dispatch
  import opened Properties

  /** The event loop: events are processed while the clock is before the
      horizon. Each event consumes one element of `draws`; the run stops
      early when they are used up. */
  function Run(cfg: Config, sim: Sim, draws: seq<Draws>): (r: Result<Sim, SimError>)
    ensures r.Success? ==>
      && |sim.metrics.series| <= |r.value.metrics.series| <= |sim.metrics.series| + |draws|
      && sim.metrics.series <= r.value.metrics.series
    ensures r.Success? && r.value.state.clock < cfg.maxTime ==>
      |r.value.metrics.series| == |sim.metrics.series| + |draws|
    ensures cfg.maxTime <= sim.state.clock ==> r == Success(sim)
    decreases |draws|
  {
    if cfg.maxTime <= sim.state.clock || draws == [] then Success(sim)
    else
      var next :- Step(cfg, sim, draws[0]);
      StepClockAndSample(cfg, sim, draws[0]);
      assert sim.metrics.series <= next.metrics.series;
      Run(cfg, next, draws[1..])
  }

  /** A run keeps one pending light change and ordered streams, keeps the
      per-road totals adding up to the aggregate ones, and never loses a
      vehicle: queued plus dispatched never decreases. */
  lemma {:induction false} RunKeepsInvariants(cfg: Config, sim: Sim, draws: seq<Draws>)
    requires CalendarInvariant(sim.calendar) && Consistent(sim.metrics)
    requires Run(cfg, sim, draws).Success?
    ensures CalendarInvariant(Run(cfg, sim, draws).value.calendar)
    ensures Consistent(Run(cfg, sim, draws).value.metrics)
    ensures Tally(sim) <= Tally(Run(cfg, sim, draws).value)
    decreases |draws|
  {
    if cfg.maxTime <= sim.state.clock || draws == [] {
    } else {
      var next := Step(cfg, sim, draws[0]).value;
      StepKeepsCalendarInvariant(cfg, sim, draws[0]);
      StepConsistent(cfg, sim, draws[0]);
      StepConserves(cfg, sim, draws[0]);
      RunKeepsInvariants(cfg, next, draws[1..]);
    }
  }

  /** Every run that `main` starts satisfies the invariants from its first
      event on. */
  lemma MainKeepsInvariants(cfg: Config, d: Draws, draws: seq<Draws>)
    requires Init(cfg, d).Success?
    requires Run(cfg, Init(cfg, d).value, draws).Success?
    ensures CalendarInvariant(Run(cfg, Init(cfg, d).value, draws).value.calendar)
    ensures Consistent(Run(cfg, Init(cfg, d).value, draws).value.metrics)
  {
    InitCalendarInvariant(cfg, d);
    InitConsistent();
    RunKeepsInvariants(cfg, Init(cfg, d).value, draws);
  }

  // ---------------------------------------------------------------------
  // Results

  /** Per-road average wait, `None` as soon as some road served no vehicle
      (the comprehension's ZeroDivisionError is caught). */
  function Averages(wait: PerRoad<real>, cars: PerRoad<nat>): (r: Option<PerRoad<real>>)
    ensures r.None? <==> exists m :: cars.Get(m) == 0
    ensures r.Some? ==> forall m :: r.value.Get(m) * cars.Get(m) as real == wait.Get(m)
  {
    if cars.ns == 0 then assert cars.Get(NS) == 0; None
    else if cars.nl == 0 then assert cars.Get(NL) == 0; None
    else if cars.es == 0 then assert cars.Get(ES) == 0; None
    else if cars.el == 0 then assert cars.Get(EL) == 0; None
    else if cars.ss == 0 then assert cars.Get(SS) == 0; None
    else if cars.sl == 0 then assert cars.Get(SL) == 0; None
    else if cars.ws == 0 then assert cars.Get(WS) == 0; None
    else if cars.wl == 0 then assert cars.Get(WL) == 0; None
    else
      Some(PerRoad(
        wait.ns / cars.ns as real, wait.nl / cars.nl as real,
        wait.es / cars.es as real, wait.el / cars.el as real,
        wait.ss / cars.ss as real, wait.sl / cars.sl as real,
        wait.ws / cars.ws as real, wait.wl / cars.wl as real))
  }

  /** What `main` returns: the mean wait, the per-road averages and the
      number of vehicles queued after each event. */
  datatype Outcome = Outcome(meanWait: real, perRoad: Option<PerRoad<real>>, series: seq<nat>)

  /** Vehicles charged by the end of run `fin`: those dispatched plus those
      still queued at the horizon. */
  function ChargedCars(fin: Sim): nat
  {
    fin.metrics.totalCars + Queued(fin.state)
  }

  /** `out` is what `main` returns after the loop ends in `fin`: every
      vehicle still queued is charged the time it has waited so far; the
      mean wait spreads the total wait over all charged vehicles, and each
      road's average its own wait over its own vehicles. */
  ghost predicate Settles(fin: Sim, out: Outcome)
  {
    && ChargedCars(fin) > 0
    && MeanOf(fin, out.meanWait)
    && out.series == fin.metrics.series
    && AveragesOf(fin, out.perRoad)
  }

  /** `mean` spread over every vehicle charged by the end of `fin` gives
      the total wait, leftover vehicles included. */
  ghost predicate MeanOf(fin: Sim, mean: real)
  {
    mean * ChargedCars(fin) as real == fin.metrics.totalWait + Leftover(fin.state)
  }

  /** `p` holds each road's average wait over the vehicles charged to it at
      the end of `fin`, or `None` when some road had none. */
  ghost predicate AveragesOf(fin: Sim, p: Option<PerRoad<real>>)
  {
    && (p.None? <==> exists m :: fin.metrics.roadCars.Get(m) + |fin.state.queues.Get(m)| == 0)
    && (p.Some? ==> forall m ::
          p.value.Get(m) * (fin.metrics.roadCars.Get(m) + |fin.state.queues.Get(m)|) as real
            == fin.metrics.roadWait.Get(m) + Wait(fin.state.clock, fin.state.queues.Get(m)))
  }

  /** The code after the loop: settle the queues and average. With no
      vehicle charged at all the final division fails. */
  method Finish(fin: Sim) returns (r: Result<Outcome, SimError>)
    ensures ChargedCars(fin) == 0 ==> r == Failure(DivisionByZero)
    ensures ChargedCars(fin) != 0 ==> r.Success? && Settles(fin, r.value)
  {
    var settled, wait, cars, leftTime, leftCars := GetWaitTimePerRoad(fin.state, fin.metrics.roadWait, fin.metrics.roadCars);
    r := Average(fin, wait, cars, leftTime, leftCars);
  }

  /** The averages `main` returns once the leftover vehicles have been
      charged: `wait` and `cars` are the per-road totals, `leftTime` and
      `leftCars` what the leftover vehicles added. */
  function Average(fin: Sim, wait: PerRoad<real>, cars: PerRoad<nat>, leftTime: real, leftCars: nat): (r: Result<Outcome, SimError>)
    requires leftCars == Queued(fin.state) && leftTime == Leftover(fin.state)
    requires forall m :: wait.Get(m) == fin.metrics.roadWait.Get(m) + Wait(fin.state.clock, fin.state.queues.Get(m))
    requires forall m :: cars.Get(m) == fin.metrics.roadCars.Get(m) + |fin.state.queues.Get(m)|
    ensures ChargedCars(fin) == 0 ==> r == Failure(DivisionByZero)
    ensures ChargedCars(fin) != 0 ==> r.Success? && Settles(fin, r.value)
  {
    var totalWait := fin.metrics.totalWait + leftTime;
    var totalCars := fin.metrics.totalCars + leftCars;
    var perRoad := Averages(wait, cars);
    if totalCars == 0 then Failure(DivisionByZero)
    else
      var out := Outcome(totalWait / totalCars as real, perRoad, fin.metrics.series);
      MeanOfCharged(fin, out.meanWait, totalWait, totalCars, leftTime, leftCars);
      SettledAverages(fin, wait, cars);
      assert Settles(fin, out);
      Success(out)
  }

  lemma MeanOfCharged(fin: Sim, mean: real, totalWait: real, totalCars: nat, leftTime: real, leftCars: nat)
    requires leftCars == Queued(fin.state) && leftTime == Leftover(fin.state)
    requires totalWait == fin.metrics.totalWait + leftTime && totalCars == fin.metrics.totalCars + leftCars
    requires totalCars > 0 && mean == totalWait / totalCars as real
    ensures MeanOf(fin, mean)
  {
  }

  lemma SettledAverages(fin: Sim, wait: PerRoad<real>, cars: PerRoad<nat>)
    requires forall m :: wait.Get(m) == fin.metrics.roadWait.Get(m) + Wait(fin.state.clock, fin.state.queues.Get(m))
    requires forall m :: cars.Get(m) == fin.metrics.roadCars.Get(m) + |fin.state.queues.Get(m)|
    ensures AveragesOf(fin, Averages(wait, cars))
  {
  }

  /** `main`: initialise, run until the horizon, then settle and average.
      A run whose draws run out before the horizon is reported as such. */
  method Simulate(cfg: Config, init: Draws, draws: seq<Draws>) returns (r: Result<Outcome, SimError>)
    ensures Init(cfg, init).Failure? ==> r == Failure(Init(cfg, init).error)
    ensures Init(cfg, init).Success? && Run(cfg, Init(cfg, init).value, draws).Failure? ==>
      r == Failure(Run(cfg, Init(cfg, init).value, draws).error)
    ensures Init(cfg, init).Success? && Run(cfg, Init(cfg, init).value, draws).Success? ==>
      var fin := Run(cfg, Init(cfg, init).value, draws).value;
      && (fin.state.clock < cfg.maxTime ==> r == Failure(DrawsExhausted))
      && (cfg.maxTime <= fin.state.clock && ChargedCars(fin) == 0 ==> r == Failure(DivisionByZero))
      && (cfg.maxTime <= fin.state.clock && ChargedCars(fin) != 0 ==> r.Success? && Settles(fin, r.value))
    ensures r.Success? ==> Init(cfg, init).Success? && Run(cfg, Init(cfg, init).value, draws).Success?
  {
    var sim :- Init(cfg, init);
    var fin :- Run(cfg, sim, draws);
    if fin.state.clock < cfg.maxTime {
      return Failure(DrawsExhausted);
    }
    r := Finish(fin);
  }
}
