/** The control-flow graph: successor and predecessor lists of a function. */
module Cfg {
  import opened Wrappers
  import opened Paths

  /** Successor and predecessor lists; edges to out-of-range blocks are dropped. */
  class ControlFlowGraph {
    var succ: Graph
    var preds: seq<seq<nat>>

    ghost predicate Valid()
      reads this
    {
      && WellFormed(succ)
      && |preds| == |succ|
      && Counted(succ, preds, |succ|, 0)
    }

    /** `terms[b]` is the successor list of block `b`'s terminator, if any. */
    constructor (terms: seq<Option<seq<nat>>>)
      ensures Valid()
      ensures |succ| == |terms|
      ensures forall b :: 0 <= b < |terms| ==>
                succ[b] == if terms[b].None? then [] else InRange(terms[b].value, |terms|)
    {
      var n := |terms|;
      var out: Graph := [];
      while |out| < n
        invariant |out| <= n
        invariant forall b :: 0 <= b < |out| ==>
                    out[b] == if terms[b].None? then [] else InRange(terms[b].value, n)
      {
        var b := |out|;
        out := out + [if terms[b].None? then [] else InRange(terms[b].value, n)];
      }
      var ins := BuildPreds(out);
      succ, preds := out, ins;
    }

    /** Membership in a predecessor list is exactly the edge relation. */
    lemma PredsAreEdges(s: nat, p: nat)
      requires Valid() && s < |succ|
      ensures p in preds[s] <==> Edge(succ, p, s)
      ensures p < |succ| ==> multiset(preds[s])[p] == multiset(succ[p])[s]
    {
      assert p in preds[s] <==> multiset(preds[s])[p] > 0;
      if p < |succ| {
        assert s in succ[p] <==> multiset(succ[p])[s] > 0;
      }
    }
  }

  /** The predecessor lists account for the first `b` blocks' edges and the
      first `i` of block `b`'s. */
  ghost predicate Counted(out: Graph, ins: seq<seq<nat>>, b: nat, i: nat) {
    && WellFormed(out) && |ins| == |out|
    && forall s: nat, p: nat :: s < |out| ==> multiset(ins[s])[p] == EdgesSeen(out, b, i, p, s)
  }

  ghost function EdgesSeen(out: Graph, b: nat, i: nat, p: nat, s: nat): nat {
    if p < b && p < |out| then multiset(out[p])[s]
    else if p == b && p < |out| && i <= |out[b]| then multiset(out[b][..i])[s]
    else 0
  }

  method BuildPreds(out: Graph) returns (ins: seq<seq<nat>>)
    requires WellFormed(out)
    ensures Counted(out, ins, |out|, 0)
  {
    ins := seq(|out|, _ => []);
    var b := 0;
    while b < |out|
      invariant b <= |out| && Counted(out, ins, b, 0)
    {
      var i := 0;
      while i < |out[b]|
        invariant i <= |out[b]| && Counted(out, ins, b, i)
      {
        CountOne(out, ins, b, i);
        var s := out[b][i];
        ins := ins[s := ins[s] + [b]];
        i := i + 1;
      }
      CountRow(out, ins, b);
      b := b + 1;
    }
  }

  lemma CountOne(out: Graph, ins: seq<seq<nat>>, b: nat, i: nat)
    requires Counted(out, ins, b, i) && b < |out| && i < |out[b]|
    ensures var s := out[b][i]; s < |ins| && Counted(out, ins[s := ins[s] + [b]], b, i + 1)
  {
    assert out[b][..i + 1] == out[b][..i] + [out[b][i]];
  }

  lemma CountRow(out: Graph, ins: seq<seq<nat>>, b: nat)
    requires b < |out| && Counted(out, ins, b, |out[b]|)
    ensures Counted(out, ins, b + 1, 0)
  {
    assert out[b][..|out[b]|] == out[b];
    forall s: nat, p: nat | s < |out| ensures multiset(ins[s])[p] == EdgesSeen(out, b + 1, 0, p, s) {
      if p == b + 1 && p < |out| { assert out[p][..0] == []; }
    }
  }

  function InRange(ss: seq<nat>, n: nat): (r: seq<nat>)
    ensures forall i :: 0 <= i < |r| ==> r[i] < n
    ensures forall s :: s in r <==> s in ss && s < n
  {
    if ss == [] then [] else (if ss[0] < n then [ss[0]] else []) + InRange(ss[1..], n)
  }
}
