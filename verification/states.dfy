/** The engine's `SimulationStates`: eight FIFO queues of arrival times, the
    light, the clock and the moment the last orange began. */
module States {
  import opened Wrappers
  import opened Errors
  import opened Movements

  /** One value per movement, one field per queue of the engine. */
  datatype PerRoad<T> = PerRoad(ns: T, nl: T, es: T, el: T, ss: T, sl: T, ws: T, wl: T)
  {
    function Get(m: Movement): T
    {
      match m
      case NS => ns
      case NL => nl
      case ES => es
      case EL => el
      case SS => ss
      case SL => sl
      case WS => ws
      case WL => wl
    }

    function Set(m: Movement, v: T): (r: PerRoad<T>)
      ensures r.Get(m) == v
      ensures forall k :: k != m ==> r.Get(k) == Get(k)
    {
      match m
      case NS => this.(ns := v)
      case NL => this.(nl := v)
      case ES => this.(es := v)
      case EL => this.(el := v)
      case SS => this.(ss := v)
      case SL => this.(sl := v)
      case WS => this.(ws := v)
      case WL => this.(wl := v)
    }
  }

  function Uniform<T>(v: T): (r: PerRoad<T>)
    ensures forall m :: r.Get(m) == v
  {
    PerRoad(v, v, v, v, v, v, v, v)
  }

  /** A movement's waiting vehicles as arrival times. Index 0 is the deque's
      left end, where `appendleft` puts the newest vehicle; the last index is
      the right end, where `pop` takes the oldest one. */
  type Queue = seq<real>

  function Push(q: Queue, t: real): Queue
  {
    [t] + q
  }

  function Oldest(q: Queue): real
    requires q != []
  {
    q[|q| - 1]
  }

  function Rest(q: Queue): Queue
    requires q != []
  {
    q[..|q| - 1]
  }

  /** The arrival times that successive `pop`s hand out, first to last. */
  function Drain(q: Queue): seq<real>
    decreases |q|
  {
    if q == [] then [] else [Oldest(q)] + Drain(Rest(q))
  }

  /** The queue after pushing `ts` one by one, `ts[0]` first. */
  function PushAll(q: Queue, ts: seq<real>): Queue
    decreases |ts|
  {
    if ts == [] then q else PushAll(Push(q, ts[0]), ts[1..])
  }

  lemma {:induction false} DrainPush(q: Queue, t: real)
    ensures Drain(Push(q, t)) == Drain(q) + [t]
    decreases |q|
  {
    if q != [] {
      assert Oldest(Push(q, t)) == Oldest(q);
      assert Rest(Push(q, t)) == Push(Rest(q), t);
      DrainPush(Rest(q), t);
    } else {
      assert Drain(Push(q, t)) == [t] + Drain([]);
    }
  }

  /** FIFO: vehicles leave in the order they were queued, after every vehicle
      that was already waiting. */
  lemma {:induction false} FifoOrder(q: Queue, ts: seq<real>)
    ensures Drain(PushAll(q, ts)) == Drain(q) + ts
    decreases |ts|
  {
    if ts != [] {
      FifoOrder(Push(q, ts[0]), ts[1..]);
      DrainPush(q, ts[0]);
      assert [ts[0]] + ts[1..] == ts;
    }
  }

  /** Sum of the lengths of the queues of `ms`. */
  function Count(qs: PerRoad<Queue>, ms: seq<Movement>): nat
    decreases |ms|
  {
    if ms == [] then 0 else |qs.Get(ms[0])| + Count(qs, ms[1..])
  }

  lemma {:induction false} CountSet(qs: PerRoad<Queue>, ms: seq<Movement>, m: Movement, q: Queue)
    requires Distinct(ms)
    ensures Count(qs.Set(m, q), ms) == Count(qs, ms) + (if m in ms then |q| - |qs.Get(m)| else 0)
    decreases |ms|
  {
    if ms != [] {
      CountSet(qs, ms[1..], m, q);
      assert m in ms <==> m == ms[0] || m in ms[1..];
      assert m == ms[0] ==> m !in ms[1..];
    }
  }

  lemma {:induction false} CountZero(qs: PerRoad<Queue>, ms: seq<Movement>)
    ensures Count(qs, ms) == 0 <==> forall i :: 0 <= i < |ms| ==> qs.Get(ms[i]) == []
    decreases |ms|
  {
    if ms != [] {
      CountZero(qs, ms[1..]);
      assert forall i :: 1 <= i < |ms| ==> ms[i] == ms[1..][i - 1];
    }
  }

  /** The engine state; a light of 5 is orange, 1 to 4 are the greens. */
  datatype Intersection = Intersection(queues: PerRoad<Queue>, light: int, clock: real, timeLastOrange: real)

  const Initial: Intersection := Intersection(Uniform([]), 0, 0.0, 0.0)

  /** The number of vehicles in all eight queues. */
  function Total(q: PerRoad<Queue>): nat
  {
    |q.ns| + |q.nl| + |q.es| + |q.el| + |q.ss| + |q.sl| + |q.ws| + |q.wl|
  }

  /** Replacing one queue changes the total by the difference in length. */
  lemma TotalSet(qs: PerRoad<Queue>, m: Movement, q: Queue)
    ensures Total(qs.Set(m, q)) + |qs.Get(m)| == Total(qs) + |q|
  {
    match m
    case NS => case NL => case ES => case EL =>
    case SS => case SL => case WS => case WL =>
  }

  /** `get_total_cars`: the number of vehicles queued on all eight movements. */
  function Queued(s: Intersection): nat
  {
    Total(s.queues)
  }

  /** The total is the count over the movements in sweep order. */
  lemma QueuedCounts(s: Intersection)
    ensures Queued(s) == Count(s.queues, All)
  {
  }

  /** `enqueue`: a vehicle arriving at time `t` joins the named movement's
      queue; an unknown name changes nothing. */
  function Enqueue(s: Intersection, name: string, t: real): (r: Intersection)
    ensures Parse(name).None? ==> r == s
    ensures Parse(name).Some? ==>
      var m := Parse(name).value;
      && r.queues.Get(m) == Push(s.queues.Get(m), t)
      && (forall k :: k != m ==> r.queues.Get(k) == s.queues.Get(k))
      && Queued(r) == Queued(s) + 1
    ensures r.light == s.light && r.clock == s.clock && r.timeLastOrange == s.timeLastOrange
  {
    match Parse(name)
    case None => s
    case Some(m) =>
      s.(queues := s.queues.Set(m, Push(s.queues.Get(m), t)))
  }

  /** `departure`: hands out the oldest vehicle's arrival time and removes it;
      an empty queue yields nothing and changes nothing; an unknown name is an
      error. */
  function Departure(s: Intersection, name: string): (r: Result<(Option<real>, Intersection), SimError>)
    ensures r.Failure? <==> Parse(name).None?
    ensures r.Failure? ==> r.error == InvalidMovement(name)
    ensures r.Success? ==>
      var m := Parse(name).value;
      var q := s.queues.Get(m);
      && (q == [] ==> r.value == (None, s))
      && (q != [] ==>
            && r.value.0 == Some(Oldest(q))
            && r.value.1.queues.Get(m) == Rest(q)
            && (forall k :: k != m ==> r.value.1.queues.Get(k) == s.queues.Get(k))
            && Queued(r.value.1) + 1 == Queued(s))
      && r.value.1.light == s.light
      && r.value.1.clock == s.clock
      && r.value.1.timeLastOrange == s.timeLastOrange
  {
    match Parse(name)
    case None => Failure(InvalidMovement(name))
    case Some(m) =>
      var q := s.queues.Get(m);
      if q == [] then Success((None, s))
      else
        Success((Some(Oldest(q)), s.(queues := s.queues.Set(m, Rest(q)))))
  }

  /** `get_road_state`: the named movement's queue, or an error for an
      unknown name. */
  function GetRoadState(s: Intersection, name: string): (r: Result<Queue, SimError>)
    ensures r.Failure? <==> Parse(name).None?
    ensures r.Failure? ==> r.error == InvalidMovement(name)
    ensures r.Success? ==> r.value == s.queues.Get(Parse(name).value)
  {
    match Parse(name)
    case None => Failure(InvalidMovement(name))
    case Some(m) => Success(s.queues.Get(m))
  }

  /** `change_lights`: switching to orange (5) records the clock as the start
      of the orange; any other light leaves that record alone. */
  function ChangeLights(s: Intersection, v: int): (r: Intersection)
    ensures r.light == v
    ensures v == 5 ==> r.timeLastOrange == s.clock
    ensures v != 5 ==> r.timeLastOrange == s.timeLastOrange
    ensures r.queues == s.queues && r.clock == s.clock
  {
    var r := s.(light := v);
    if v == 5 then r.(timeLastOrange := s.clock) else r
  }

  function AdvanceClock(s: Intersection, t: real): (r: Intersection)
    ensures r.clock == t
    ensures r.queues == s.queues && r.light == s.light && r.timeLastOrange == s.timeLastOrange
  {
    s.(clock := t)
  }

  /** `all_roads_empty`: no movement has a waiting vehicle. */
  function AllRoadsEmpty(s: Intersection): (r: bool)
    ensures r <==> Queued(s) == 0
    ensures r <==> forall m :: s.queues.Get(m) == []
  {
    AllIsComplete();
    CountZero(s.queues, All);
    QueuedCounts(s);
    forall i | 0 <= i < |All| :: s.queues.Get(All[i]) == []
  }

  /** `enqueue` of each arrival time in turn. */
  function EnqueueAll(s: Intersection, name: string, ts: seq<real>): Intersection
    decreases |ts|
  {
    if ts == [] then s else EnqueueAll(Enqueue(s, name, ts[0]), name, ts[1..])
  }

  /** The arrival times successive `departure` calls return until the named
      queue is empty. */
  function DepartAll(s: Intersection, name: string): seq<real>
    requires Parse(name).Some?
    decreases |s.queues.Get(Parse(name).value)|
  {
    var out := Departure(s, name).value;
    match out.0
    case None => []
    case Some(t) => [t] + DepartAll(out.1, name)
  }

  lemma {:induction false} DepartAllDrains(s: Intersection, name: string)
    requires Parse(name).Some?
    ensures DepartAll(s, name) == Drain(s.queues.Get(Parse(name).value))
    decreases |s.queues.Get(Parse(name).value)|
  {
    var out := Departure(s, name).value;
    if out.0.Some? {
      DepartAllDrains(out.1, name);
    }
  }

  lemma {:induction false} EnqueueAllPushes(s: Intersection, name: string, ts: seq<real>)
    requires Parse(name).Some?
    ensures EnqueueAll(s, name, ts).queues.Get(Parse(name).value) == PushAll(s.queues.Get(Parse(name).value), ts)
    decreases |ts|
  {
    if ts != [] {
      EnqueueAllPushes(Enqueue(s, name, ts[0]), name, ts[1..]);
    }
  }

  /** FIFO at the engine's interface: after enqueueing `ts` on a movement,
      departures return the vehicles already waiting, oldest first, and then
      exactly `ts` in the order it was enqueued. */
  lemma Fifo(s: Intersection, name: string, ts: seq<real>)
    requires Parse(name).Some?
    ensures DepartAll(EnqueueAll(s, name, ts), name) == DepartAll(s, name) + ts
  {
    EnqueueAllPushes(s, name, ts);
    DepartAllDrains(EnqueueAll(s, name, ts), name);
    DepartAllDrains(s, name);
    FifoOrder(s.queues.Get(Parse(name).value), ts);
  }

  /** `get_total_cars`, as the engine computes it: a sweep over the eight
      queues adding up their lengths. */
  method GetTotalCars(s: Intersection) returns (total: nat)
    ensures total == Queued(s)
    ensures total == 0 <==> forall m :: s.queues.Get(m) == []
  {
    total := 0;
    var i := 0;
    QueuedCounts(s);
    while i < |All|
      invariant 0 <= i <= |All|
      invariant total + Count(s.queues, All[i..]) == Queued(s)
    {
      assert All[i..][1..] == All[i + 1..];
      total := total + |s.queues.Get(All[i])|;
      i := i + 1;
    }
    assert AllRoadsEmpty(s) <==> Queued(s) == 0;
  }
}
