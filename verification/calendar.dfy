/** The engine's `ScheduledEvents`: three streams of timed events and the
    selection of the next one to process. */
module Calendar {
  import opened Wrappers

  /** A scheduled event: its time and what it concerns (a road name for
      arrivals and departures, a target light for light changes). */
  datatype Entry<T> = Entry(time: real, tag: T)

  /** The time of the `i`-th entry; the order predicates below quantify
      over it rather than over `s[i]`, so that they are only instantiated
      where a proof asks about an entry's time. */
  function TimeOf<T>(s: seq<Entry<T>>, i: int): real
    requires 0 <= i < |s|
  {
    s[i].time
  }

  predicate Sorted<T>(s: seq<Entry<T>>)
  {
    forall i, j :: 0 <= i < j < |s| ==> TimeOf(s, i) <= TimeOf(s, j)
  }

  lemma SortedPair<T>(s: seq<Entry<T>>, i: int, j: int)
    requires Sorted(s) && 0 <= i <= j < |s|
    ensures s[i].time <= s[j].time
  {
    if i < j {
      assert TimeOf(s, i) <= TimeOf(s, j);
    }
  }

  /** Dropping the head of a sorted stream leaves it sorted. */
  lemma SortedTail<T>(s: seq<Entry<T>>)
    requires Sorted(s) && s != []
    ensures Sorted(s[1..])
  {
    forall i, j | 0 <= i < j < |s| - 1
      ensures TimeOf(s[1..], i) <= TimeOf(s[1..], j)
    {
      assert TimeOf(s, i + 1) <= TimeOf(s, j + 1);
    }
  }

  /** Where a stable sort places `e` when it comes before the entries of
      `s`: after every strictly earlier entry and before the first entry
      that is not earlier. */
  function InsertionPoint<T>(e: Entry<T>, s: seq<Entry<T>>): (k: nat)
    ensures k <= |s|
    ensures forall i :: 0 <= i < k ==> TimeOf(s, i) < e.time
    ensures k < |s| ==> e.time <= s[k].time
    decreases |s|
  {
    if s == [] || e.time <= s[0].time then 0
    else
      var k := InsertionPoint(e, s[1..]);
      assert forall i :: 1 <= i < 1 + k ==> TimeOf(s, i) == TimeOf(s[1..], i - 1);
      1 + k
  }

  function Insert<T>(e: Entry<T>, s: seq<Entry<T>>): (r: seq<Entry<T>>)
    decreases |s|
  {
    if s == [] || e.time <= s[0].time then [e] + s
    else [s[0]] + Insert(e, s[1..])
  }

  /** `Insert` places `e` at its insertion point and keeps the rest. */
  lemma {:induction false} InsertSplits<T>(e: Entry<T>, s: seq<Entry<T>>)
    ensures Insert(e, s) == s[..InsertionPoint(e, s)] + [e] + s[InsertionPoint(e, s)..]
    decreases |s|
  {
    if s != [] && s[0].time < e.time {
      InsertSplits(e, s[1..]);
      assert s == [s[0]] + s[1..];
    }
  }

  lemma InsertKeepsSorted<T>(e: Entry<T>, s: seq<Entry<T>>)
    requires Sorted(s)
    ensures Sorted(Insert(e, s))
  {
    var k := InsertionPoint(e, s);
    var r := Insert(e, s);
    InsertSplits(e, s);
    forall i, j | 0 <= i < j < |r|
      ensures TimeOf(r, i) <= TimeOf(r, j)
    {
      if j < k {
        assert r[i] == s[i] && r[j] == s[j];
        SortedPair(s, i, j);
      } else if j == k {
        assert r[i] == s[i] && r[j] == e;
        assert TimeOf(s, i) < e.time;
      } else if i < k {
        assert r[i] == s[i] && r[j] == s[j - 1];
        SortedPair(s, i, j - 1);
      } else if i == k {
        assert r[i] == e && r[j] == s[j - 1];
        SortedPair(s, k, j - 1);
      } else {
        assert r[i] == s[i - 1] && r[j] == s[j - 1];
        SortedPair(s, i - 1, j - 1);
      }
    }
  }

  lemma InsertMultiset<T>(e: Entry<T>, s: seq<Entry<T>>)
    ensures multiset(Insert(e, s)) == multiset(s) + multiset{e}
  {
    var k := InsertionPoint(e, s);
    InsertSplits(e, s);
    assert s == s[..k] + s[k..];
  }

  /** The entries of `s` due at time `t`, in their order in `s`. */
  function OfTime<T>(s: seq<Entry<T>>, t: real): seq<Entry<T>>
    decreases |s|
  {
    if s == [] then [] else (if s[0].time == t then [s[0]] else []) + OfTime(s[1..], t)
  }

  /** `Insert` puts `e` ahead of every entry due at its own time and moves
      no other entry past one of equal time. */
  lemma {:induction false} InsertOfTime<T>(e: Entry<T>, s: seq<Entry<T>>, t: real)
    ensures OfTime(Insert(e, s), t) == (if e.time == t then [e] else []) + OfTime(s, t)
    decreases |s|
  {
    if s == [] || e.time <= s[0].time {
      assert ([e] + s)[1..] == s;
    } else {
      var rest := Insert(e, s[1..]);
      var head := if s[0].time == t then [s[0]] else [];
      var mine := if e.time == t then [e] else [];
      assert ([s[0]] + rest)[1..] == rest;
      assert OfTime(Insert(e, s), t) == head + OfTime(rest, t);
      InsertOfTime(e, s[1..], t);
      assert e.time == t ==> head == [];
      assert head + (mine + OfTime(s[1..], t)) == mine + (head + OfTime(s[1..], t));
    }
  }

  /** Python's `sorted` by time: a stable insertion sort, inserting each
      entry ahead of the equal-time entries that follow it. */
  function SortByTime<T(==)>(s: seq<Entry<T>>): (r: seq<Entry<T>>)
    ensures Sorted(r)
    ensures multiset(r) == multiset(s)
    ensures forall t :: OfTime(r, t) == OfTime(s, t)
    decreases |s|
  {
    if s == [] then []
    else
      var r := Insert(s[0], SortByTime(s[1..]));
      InsertKeepsSorted(s[0], SortByTime(s[1..]));
      InsertMultiset(s[0], SortByTime(s[1..]));
      assert s == [s[0]] + s[1..];
      assert forall t :: OfTime(r, t) == OfTime(s, t) by {
        forall t ensures OfTime(r, t) == OfTime(s, t) {
          InsertOfTime(s[0], SortByTime(s[1..]), t);
        }
      }
      r
  }

  /** Sorting a stream that is already in time order leaves it unchanged. */
  lemma {:induction false} SortOfSorted<T>(s: seq<Entry<T>>)
    ensures Sorted(s) ==> SortByTime(s) == s
    decreases |s|
  {
    if s != [] && Sorted(s) {
      SortedTail(s);
      SortOfSorted(s[1..]);
      if |s| > 1 {
        SortedPair(s, 0, 1);
      }
      assert InsertionPoint(s[0], s[1..]) == 0;
      InsertSplits(s[0], s[1..]);
    }
  }

  /** Scheduling `e` into `s` as the engine does: `appendleft`, then sort. */
  function Schedule<T(==)>(s: seq<Entry<T>>, e: Entry<T>): (r: seq<Entry<T>>)
    ensures Sorted(r)
    ensures multiset(r) == multiset(s) + multiset{e}
  {
    var r := SortByTime([e] + s);
    assert ([e] + s)[1..] == s;
    r
  }

  /** Scheduling into a stream already in time order inserts the entry at
      its insertion point: after the strictly earlier entries, before the
      rest. */
  lemma ScheduleIntoSorted<T>(s: seq<Entry<T>>, e: Entry<T>)
    requires Sorted(s)
    ensures Schedule(s, e) == s[..InsertionPoint(e, s)] + [e] + s[InsertionPoint(e, s)..]
  {
    assert ([e] + s)[1..] == s;
    SortOfSorted(s);
    InsertSplits(e, s);
  }

  datatype Calendar = Calendar(departures: seq<Entry<string>>, arrivals: seq<Entry<string>>, lightChanges: seq<Entry<int>>)

  const NoEvents: Calendar := Calendar([], [], [])

  /** A calendar whose arrival and departure streams are in time order. */
  predicate Ordered(c: Calendar)
  {
    Sorted(c.departures) && Sorted(c.arrivals)
  }

  /** An event taken off the calendar. */
  datatype Event =
    | Depart(time: real, road: string)
    | Arrive(time: real, road: string)
    | Switch(time: real, light: int)

  /** `schedule_arrival`: the new entry goes before every pending arrival
      that is not earlier, and the stream stays in time order. */
  function ScheduleArrival(c: Calendar, e: Entry<string>): (r: Calendar)
    ensures r.arrivals == Schedule(c.arrivals, e)
    ensures r.departures == c.departures && r.lightChanges == c.lightChanges
  {
    c.(arrivals := Schedule(c.arrivals, e))
  }

  /** `schedule_departure`, the same for departures. */
  function ScheduleDeparture(c: Calendar, e: Entry<string>): (r: Calendar)
    ensures r.departures == Schedule(c.departures, e)
    ensures r.arrivals == c.arrivals && r.lightChanges == c.lightChanges
  {
    c.(departures := Schedule(c.departures, e))
  }

  /** `sort_arrivals`: a no-op on a calendar whose arrivals are in order. */
  function SortArrivals(c: Calendar): (r: Calendar)
    ensures Sorted(r.arrivals) && multiset(r.arrivals) == multiset(c.arrivals)
    ensures forall t :: OfTime(r.arrivals, t) == OfTime(c.arrivals, t)
    ensures Sorted(c.arrivals) ==> r == c
    ensures r.departures == c.departures && r.lightChanges == c.lightChanges
  {
    SortOfSorted(c.arrivals);
    c.(arrivals := SortByTime(c.arrivals))
  }

  /** `sort_departures`: a no-op on a calendar whose departures are in order. */
  function SortDepartures(c: Calendar): (r: Calendar)
    ensures Sorted(r.departures) && multiset(r.departures) == multiset(c.departures)
    ensures forall t :: OfTime(r.departures, t) == OfTime(c.departures, t)
    ensures Sorted(c.departures) ==> r == c
    ensures r.arrivals == c.arrivals && r.lightChanges == c.lightChanges
  {
    SortOfSorted(c.departures);
    c.(departures := SortByTime(c.departures))
  }

  /** `schedule_light_change`: `appendleft` without sorting, so the newest
      light change is the one the selection looks at. */
  function ScheduleLightChange(c: Calendar, e: Entry<int>): (r: Calendar)
    ensures |r.lightChanges| == |c.lightChanges| + 1
    ensures r.lightChanges[0] == e && r.lightChanges[1..] == c.lightChanges
    ensures r.departures == c.departures && r.arrivals == c.arrivals
  {
    c.(lightChanges := [e] + c.lightChanges)
  }

  /** `clear_light_change`: drops every pending light change. */
  function ClearLightChange(c: Calendar): (r: Calendar)
    ensures r.lightChanges == []
    ensures r.departures == c.departures && r.arrivals == c.arrivals
  {
    c.(lightChanges := [])
  }

  function HeadTime<T>(s: seq<Entry<T>>): Option<real>
  {
    if s == [] then None else Some(s[0].time)
  }

  /** Head times of the departure, arrival and light-change streams, in the
      order the engine examines them. */
  function Heads(c: Calendar): seq<Option<real>>
  {
    [HeadTime(c.departures), HeadTime(c.arrivals), HeadTime(c.lightChanges)]
  }

  /** The first present time among `hs[..i]` that is strictly earlier than
      every present time before it; `None` if there is none. */
  function Scan(hs: seq<Option<real>>, i: nat, best: Option<nat>): (r: Option<nat>)
    requires i <= |hs|
    requires best.Some? ==> best.value < i && hs[best.value].Some?
    requires best.Some? ==> forall j :: 0 <= j < i && hs[j].Some? ==> hs[best.value].value <= hs[j].value
    requires best.Some? ==> forall j :: 0 <= j < best.value ==> hs[j].None? || hs[best.value].value < hs[j].value
    requires best.None? ==> forall j :: 0 <= j < i ==> hs[j].None?
    ensures r.None? <==> forall j :: 0 <= j < |hs| ==> hs[j].None?
    ensures r.Some? ==> r.value < |hs| && hs[r.value].Some?
    ensures r.Some? ==> forall j :: 0 <= j < |hs| && hs[j].Some? ==> hs[r.value].value <= hs[j].value
    ensures r.Some? ==> forall j :: 0 <= j < r.value ==> hs[j].None? || hs[r.value].value < hs[j].value
    decreases |hs| - i
  {
    if i == |hs| then best
    else if hs[i].Some? && (best.None? || hs[i].value < hs[best.value].value) then Scan(hs, i + 1, Some(i))
    else Scan(hs, i + 1, best)
  }

  /** `get_next_event`: the earliest head over the three streams, ties going
      to departures, then arrivals, then light changes; that head alone is
      removed. `None` where the engine would fail on an empty calendar. */
  function NextEvent(c: Calendar): (r: Option<(Event, Calendar)>)
    ensures r.None? <==> c.departures == [] && c.arrivals == [] && c.lightChanges == []
    ensures r.Some? ==>
      var e := r.value.0;
      && (c.departures != [] ==> e.time <= c.departures[0].time)
      && (c.arrivals != [] ==> e.time <= c.arrivals[0].time)
      && (c.lightChanges != [] ==> e.time <= c.lightChanges[0].time)
    ensures r.Some? && r.value.0.Depart? ==>
      && c.departures != []
      && r.value.0 == Depart(c.departures[0].time, c.departures[0].tag)
      && r.value.1 == c.(departures := c.departures[1..])
    ensures r.Some? && r.value.0.Arrive? ==>
      && c.arrivals != []
      && r.value.0 == Arrive(c.arrivals[0].time, c.arrivals[0].tag)
      && r.value.1 == c.(arrivals := c.arrivals[1..])
      && (c.departures != [] ==> r.value.0.time < c.departures[0].time)
    ensures r.Some? && r.value.0.Switch? ==>
      && c.lightChanges != []
      && r.value.0 == Switch(c.lightChanges[0].time, c.lightChanges[0].tag)
      && r.value.1 == c.(lightChanges := c.lightChanges[1..])
      && (c.departures != [] ==> r.value.0.time < c.departures[0].time)
      && (c.arrivals != [] ==> r.value.0.time < c.arrivals[0].time)
  {
    var hs := Heads(c);
    match Scan(hs, 0, None)
    case None =>
      assert hs[0].None? && hs[1].None? && hs[2].None?;
      None
    case Some(k) =>
      assert hs[1].Some? ==> hs[k].value <= hs[1].value;
      assert hs[2].Some? ==> hs[k].value <= hs[2].value;
      if k == 0 then
        Some((Depart(c.departures[0].time, c.departures[0].tag), c.(departures := c.departures[1..])))
      else if k == 1 then
        assert hs[0].None? || hs[1].value < hs[0].value;
        Some((Arrive(c.arrivals[0].time, c.arrivals[0].tag), c.(arrivals := c.arrivals[1..])))
      else
        assert hs[0].None? || hs[2].value < hs[0].value;
        assert hs[1].None? || hs[2].value < hs[1].value;
        Some((Switch(c.lightChanges[0].time, c.lightChanges[0].tag), c.(lightChanges := c.lightChanges[1..])))
  }
}
