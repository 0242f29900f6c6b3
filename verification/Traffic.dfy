/** The traffic of connections between a pool and one of its users. */
module Traffic {
  import opened Wrappers

  type Conn = nat

  datatype Move = Took(c: Conn) | GaveBack(c: Conn) | Closed(c: Conn)

  /** Every connection taken is given back or closed before the next one is
      taken; `held` is the one taken last, if it has not left yet. */
  predicate Paired(moves: seq<Move>, held: Option<Conn>)
    decreases |moves|
  {
    if moves == [] then held.None? else
    var before := moves[..|moves| - 1];
    match moves[|moves| - 1]
    case Took(c) => held == Some(c) && Paired(before, None)
    case GaveBack(c) => held.None? && Paired(before, Some(c))
    case Closed(c) => held.None? && Paired(before, Some(c))
  }

  function Count(moves: seq<Move>, m: Move): nat
    decreases |moves|
  {
    if moves == [] then 0
    else Count(moves[..|moves| - 1], m) + if moves[|moves| - 1] == m then 1 else 0
  }

  /** Paired traffic conserves connections: as many arrivals of c as departures,
      and one more while c is held. */
  lemma {:induction false} PairedConserves(moves: seq<Move>, held: Option<Conn>, c: Conn)
    requires Paired(moves, held)
    ensures Count(moves, Took(c)) == Count(moves, GaveBack(c)) + Count(moves, Closed(c)) + if held == Some(c) then 1 else 0
    decreases |moves|
  {
    if moves != [] {
      var last := moves[|moves| - 1];
      PairedConserves(moves[..|moves| - 1], if last.Took? then None else Some(last.c), c);
    }
  }
}
