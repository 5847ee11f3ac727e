/** The engine's `get_wait_time_per_road`: the end-of-horizon sweep that charges
    every still-queued vehicle the time it has waited so far. */
module Settlement {
  import opened Wrappers
  import opened Movements
  import opened States

  /** Wait charged to the vehicles of `q` at clock `c`: the sum of
      `c - arrival` over the queue, taken in the order `pop` hands them out. */
  function Wait(c: real, q: Queue): real
    decreases |q|
  {
    if q == [] then 0.0 else (c - Oldest(q)) + Wait(c, Rest(q))
  }

  /** Wait charged to the queues of `ms`. */
  function WaitOver(c: real, qs: PerRoad<Queue>, ms: seq<Movement>): real
    decreases |ms|
  {
    if ms == [] then 0.0 else Wait(c, qs.Get(ms[0])) + WaitOver(c, qs, ms[1..])
  }

  /** Wait charged to every vehicle queued at the intersection. */
  function Leftover(s: Intersection): real
  {
    WaitOver(s.clock, s.queues, All)
  }

  /** Sum of the arrival times in `q`. */
  function Arrivals(q: Queue): real
  {
    if q == [] then 0.0 else q[0] + Arrivals(q[1..])
  }

  lemma {:induction false} ArrivalsSnoc(q: Queue)
    requires q != []
    ensures Arrivals(q) == Arrivals(Rest(q)) + Oldest(q)
    decreases |q|
  {
    if |q| > 1 {
      ArrivalsSnoc(q[1..]);
      assert Rest(q[1..]) == Rest(q)[1..];
    }
  }

  /** The wait of a queue is its size times the clock, less its arrival
      times: the order of charging does not matter. */
  lemma {:induction false} WaitClosedForm(c: real, q: Queue)
    ensures Wait(c, q) == |q| as real * c - Arrivals(q)
    decreases |q|
  {
    if q != [] {
      WaitClosedForm(c, Rest(q));
      ArrivalsSnoc(q);
    }
  }

  /** Drains the named movement's queue through `departure` until it reports
      nothing left, summing `clock - arrival`. */
  method DrainRoad(s: Intersection, m: Movement) returns (s': Intersection, left: real, carsLeft: nat)
    ensures s'.queues.Get(m) == []
    ensures forall k :: k != m ==> s'.queues.Get(k) == s.queues.Get(k)
    ensures s'.light == s.light && s'.clock == s.clock && s'.timeLastOrange == s.timeLastOrange
    ensures left == Wait(s.clock, s.queues.Get(m))
    ensures carsLeft == |s.queues.Get(m)|
  {
    s' := s;
    left := 0.0;
    carsLeft := 0;
    var cont := true;
    while cont
      invariant forall k :: k != m ==> s'.queues.Get(k) == s.queues.Get(k)
      invariant s'.light == s.light && s'.clock == s.clock && s'.timeLastOrange == s.timeLastOrange
      invariant left + Wait(s.clock, s'.queues.Get(m)) == Wait(s.clock, s.queues.Get(m))
      invariant carsLeft + |s'.queues.Get(m)| == |s.queues.Get(m)|
      invariant !cont ==> s'.queues.Get(m) == []
      decreases |s'.queues.Get(m)| + (if cont then 1 else 0)
    {
      var r := Departure(s', Name(m));
      match r.value.0
      case Some(t) =>
        left := left + (s'.clock - t);
        carsLeft := carsLeft + 1;
        s' := r.value.1;
      case None =>
        cont := false;
    }
  }

  /** Movement `m` has been swept: its queue is empty and its leftovers were
      added to the per-road totals. */
  ghost predicate Settled(s: Intersection, s': Intersection, dictTime: PerRoad<real>, time': PerRoad<real>,
                          dictCars: PerRoad<nat>, cars': PerRoad<nat>, m: Movement)
  {
    && s'.queues.Get(m) == []
    && time'.Get(m) == dictTime.Get(m) + Wait(s.clock, s.queues.Get(m))
    && cars'.Get(m) == dictCars.Get(m) + |s.queues.Get(m)|
  }

  /** Movement `m` has not been swept yet. */
  ghost predicate Untouched(s: Intersection, s': Intersection, dictTime: PerRoad<real>, time': PerRoad<real>,
                            dictCars: PerRoad<nat>, cars': PerRoad<nat>, m: Movement)
  {
    && s'.queues.Get(m) == s.queues.Get(m)
    && time'.Get(m) == dictTime.Get(m)
    && cars'.Get(m) == dictCars.Get(m)
  }

  /** `get_wait_time_per_road`: empties every queue, adds each movement's
      leftover wait and vehicle count to the per-road totals, and returns the
      intersection-wide leftover wait and count. */
  method GetWaitTimePerRoad(s: Intersection, dictTime: PerRoad<real>, dictCars: PerRoad<nat>)
    returns (s': Intersection, time': PerRoad<real>, cars': PerRoad<nat>, totalTime: real, numCars: nat)
    ensures forall m :: s'.queues.Get(m) == []
    ensures s'.light == s.light && s'.clock == s.clock && s'.timeLastOrange == s.timeLastOrange
    ensures numCars == Queued(s)
    ensures totalTime == Leftover(s)
    ensures forall m :: time'.Get(m) == dictTime.Get(m) + Wait(s.clock, s.queues.Get(m))
    ensures forall m :: cars'.Get(m) == dictCars.Get(m) + |s.queues.Get(m)|
  {
    AllIsComplete();
    s' := s;
    time' := dictTime;
    cars' := dictCars;
    totalTime := 0.0;
    numCars := 0;
    assert All[0..] == All;
    var i := 0;
    while i < |All|
      invariant 0 <= i <= |All|
      invariant s'.light == s.light && s'.clock == s.clock && s'.timeLastOrange == s.timeLastOrange
      invariant forall m :: Position(m) < i ==> Settled(s, s', dictTime, time', dictCars, cars', m)
      invariant forall m :: Position(m) >= i ==> Untouched(s, s', dictTime, time', dictCars, cars', m)
      invariant totalTime + WaitOver(s.clock, s.queues, All[i..]) == Leftover(s)
      invariant numCars + Count(s.queues, All[i..]) == Count(s.queues, All)
    {
      var m := All[i];
      ghost var s0, time0, cars0 := s', time', cars';
      assert Position(m) == i;
      assert Untouched(s, s0, dictTime, time0, dictCars, cars0, m);
      var left, carsLeft;
      s', left, carsLeft := DrainRoad(s', m);
      time' := time'.Set(m, time'.Get(m) + left);
      cars' := cars'.Set(m, cars'.Get(m) + carsLeft);
      forall k | Position(k) < i + 1
        ensures Settled(s, s', dictTime, time', dictCars, cars', k)
      {
        if k != m {
          assert Settled(s, s0, dictTime, time0, dictCars, cars0, k);
        }
      }
      forall k | Position(k) >= i + 1
        ensures Untouched(s, s', dictTime, time', dictCars, cars', k)
      {
        assert Untouched(s, s0, dictTime, time0, dictCars, cars0, k);
      }
      assert All[i..][1..] == All[i + 1..];
      totalTime := totalTime + left;
      numCars := numCars + carsLeft;
      i := i + 1;
    }
    QueuedCounts(s);
    forall m
      ensures s'.queues.Get(m) == []
      ensures time'.Get(m) == dictTime.Get(m) + Wait(s.clock, s.queues.Get(m))
      ensures cars'.Get(m) == dictCars.Get(m) + |s.queues.Get(m)|
    {
      assert Settled(s, s', dictTime, time', dictCars, cars', m);
    }
  }
}
