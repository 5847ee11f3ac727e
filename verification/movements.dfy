/** The eight queued traffic movements and their road-name spelling. */
module Movements {
  import opened Wrappers

  /** Compass approach (North, East, South, West) times Straight or Left.
      Right turns are always permitted and never queued. */
  datatype Movement = NS | NL | ES | EL | SS | SL | WS | WL

  /** Every movement, in the order the engine sweeps its queues. */
  const All: seq<Movement> := [NS, NL, ES, EL, SS, SL, WS, WL]

  /** Where `m` stands in the sweep order. */
  function Position(m: Movement): (i: nat)
    ensures i < |All| && All[i] == m
  {
    match m
    case NS => 0
    case NL => 1
    case ES => 2
    case EL => 3
    case SS => 4
    case SL => 5
    case WS => 6
    case WL => 7
  }

  function Name(m: Movement): string
  {
    match m
    case NS => "NS"
    case NL => "NL"
    case ES => "ES"
    case EL => "EL"
    case SS => "SS"
    case SL => "SL"
    case WS => "WS"
    case WL => "WL"
  }

  /** Recognises a road name; `None` is the engine's "not a valid type". */
  function Parse(s: string): (r: Option<Movement>)
    ensures forall m :: r == Some(m) <==> Name(m) == s
  {
    if |s| != 2 then None
    else if s[0] == 'N' then (if s[1] == 'S' then Some(NS) else if s[1] == 'L' then Some(NL) else None)
    else if s[0] == 'E' then (if s[1] == 'S' then Some(ES) else if s[1] == 'L' then Some(EL) else None)
    else if s[0] == 'S' then (if s[1] == 'S' then Some(SS) else if s[1] == 'L' then Some(SL) else None)
    else if s[0] == 'W' then (if s[1] == 'S' then Some(WS) else if s[1] == 'L' then Some(WL) else None)
    else None
  }

  /** A list with no repeated element. */
  predicate Distinct<T(==)>(ms: seq<T>)
  {
    forall i, j :: 0 <= i < j < |ms| ==> ms[i] != ms[j]
  }

  lemma AllIsComplete()
    ensures forall m: Movement :: m in All
    ensures Distinct(All)
  {
    forall m: Movement ensures m in All {
      match m
      case NS => assert All[0] == m;
      case NL => assert All[1] == m;
      case ES => assert All[2] == m;
      case EL => assert All[3] == m;
      case SS => assert All[4] == m;
      case SL => assert All[5] == m;
      case WS => assert All[6] == m;
      case WL => assert All[7] == m;
    }
  }
}
