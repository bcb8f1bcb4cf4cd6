/** What a Loop turn may use of its caps when it is paused and continued over several calls. */
module LoopCaps {

  datatype Usage = Usage(iterations: nat, tokens: nat)
  {
    function Plus(u: Usage): Usage { Usage(iterations + u.iterations, tokens + u.tokens) }
  }

  const UNUSED := Usage(0, 0)

  /** A cap of 0 is no cap. */
  datatype Caps = Caps(iterations: nat, tokens: nat)

  function Lowered(cap: nat, used: nat): nat {
    if cap == 0 then 0 else if cap > used then cap - used else 1
  }

  /** The caps of a call that continues a turn which used this much. */
  function WithinCaps(caps: Caps, used: Usage): Caps {
    if used == UNUSED then caps else Caps(Lowered(caps.iterations, used.iterations), Lowered(caps.tokens, used.tokens))
  }

  /** A continued call may use what its turn left of each cap and at least one; without a cap it stays
      without; a call of a turn that used nothing has the caps as they are. */
  lemma ContinuedCaps(caps: Caps, used: Usage)
    ensures var c := WithinCaps(caps, used);
      && (c.iterations == 0 <==> caps.iterations == 0) && (c.tokens == 0 <==> caps.tokens == 0)
      && (used == Usage(0, 0) ==> c == caps)
      && (used != Usage(0, 0) && caps.iterations > 0 ==>
            c.iterations == if used.iterations < caps.iterations then caps.iterations - used.iterations else 1)
      && (used != Usage(0, 0) && caps.tokens > 0 ==>
            c.tokens == if used.tokens < caps.tokens then caps.tokens - used.tokens else 1)
  {}

  function Used(calls: seq<Usage>): Usage {
    if calls == [] then UNUSED else Used(calls[..|calls| - 1]).Plus(calls[|calls| - 1])
  }

  /** Every call of the turn kept to the iteration cap it was given. */
  ghost predicate EachWithinCap(caps: Caps, calls: seq<Usage>) {
    calls != [] ==>
      var front := calls[..|calls| - 1];
      EachWithinCap(caps, front) && calls[|calls| - 1].iterations <= WithinCaps(caps, Used(front)).iterations
  }

  /** Over n calls a turn uses at most its cap and one iteration more for each call after the first. */
  lemma {:induction false} TurnBounded(caps: Caps, calls: seq<Usage>)
    requires caps.iterations > 0 && calls != [] && EachWithinCap(caps, calls)
    ensures Used(calls).iterations <= caps.iterations + |calls| - 1
  {
    if |calls| > 1 {
      TurnBounded(caps, calls[..|calls| - 1]);
    }
  }

  /** The bound is met: the first call uses the whole cap, each later one the iteration it is left. */
  lemma {:induction false} BoundMet(caps: Caps, n: nat) returns (calls: seq<Usage>)
    requires caps.iterations > 0 && n > 0
    ensures |calls| == n && EachWithinCap(caps, calls) && Used(calls).iterations == caps.iterations + n - 1
  {
    if n == 1 {
      calls := [Usage(caps.iterations, 0)];
      assert calls[..0] == [];
    } else {
      var front := BoundMet(caps, n - 1);
      calls := front + [Usage(1, 0)];
      assert calls[..n - 1] == front;
    }
  }
}
