/** How far a node of a graph is from a set of sources: the balls a breadth-first
    search grows. */
module Distances {
  import opened Paths

  /** Where `s` leads in one step. */
  ghost function OneStep(g: Graph, s: set<nat>): set<nat> {
    set x, w | x in s && x < |g| && w in g[x] :: w
  }

  /** The nodes at most `n` steps from `v`. */
  ghost function Ball(g: Graph, v: nat, n: nat): set<nat> {
    if n == 0 then {v} else Ball(g, v, n - 1) + OneStep(g, Ball(g, v, n - 1))
  }

  /** No source is within `n` steps. */
  ghost predicate NoSource(g: Graph, src: set<nat>, v: nat, n: nat) {
    Ball(g, v, n) !! src
  }

  /** `d` is the length of the shortest way from `v` to a source. */
  ghost predicate IsDepth(g: Graph, src: set<nat>, v: nat, d: nat) {
    !NoSource(g, src, v, d) && (d > 0 ==> NoSource(g, src, v, d - 1))
  }

  /** No way leads from `v` to a source. */
  ghost predicate Sourceless(g: Graph, src: set<nat>, v: nat) {
    forall n: nat :: NoSource(g, src, v, n)
  }

  lemma StepIn(g: Graph, s: set<nat>, x: nat, w: nat)
    requires x in s && Edge(g, x, w)
    ensures w in OneStep(g, s)
  { }

  lemma {:induction false} BallGrows(g: Graph, v: nat, m: nat, n: nat)
    requires m <= n
    ensures Ball(g, v, m) <= Ball(g, v, n)
  {
    hide OneStep;
    if m < n { BallGrows(g, v, m, n - 1); }
  }

  lemma SelfIn(g: Graph, v: nat, n: nat)
    ensures v in Ball(g, v, n)
  {
    BallGrows(g, v, 0, n);
  }

  lemma DepthIsUnique(g: Graph, src: set<nat>, v: nat, d: nat, e: nat)
    requires IsDepth(g, src, v, d) && IsDepth(g, src, v, e)
    ensures d == e
  {
    hide Ball;
    if d < e { BallGrows(g, v, d, e - 1); }
    if e < d { BallGrows(g, v, e, d - 1); }
  }

  lemma {:induction false} DepthExists(g: Graph, src: set<nat>, v: nat, n: nat)
    requires !NoSource(g, src, v, n)
    ensures exists d: nat :: IsDepth(g, src, v, d)
  {
    hide NoSource;
    if n == 0 || NoSource(g, src, v, n - 1) {
      assert IsDepth(g, src, v, n);
    } else {
      DepthExists(g, src, v, n - 1);
    }
  }

  /** A step, then `n` more, stays within `n + 1`. */
  lemma {:induction false} FrontIn(g: Graph, v: nat, n: nat, w: nat, x: nat)
    requires Edge(g, v, w) && x in Ball(g, w, n)
    ensures x in Ball(g, v, n + 1)
  {
    if n == 0 {
      StepIn(g, Ball(g, v, 0), v, w);
    } else if x in Ball(g, w, n - 1) {
      FrontIn(g, v, n - 1, w, x);
    } else {
      assert x in OneStep(g, Ball(g, w, n - 1));
      var y: nat :| y in Ball(g, w, n - 1) && y < |g| && x in g[y];
      FrontIn(g, v, n - 1, w, y);
      StepIn(g, Ball(g, v, n), y, x);
    }
  }

  /** Whatever else is within `n + 1` is reached by a first step. */
  lemma {:induction false} FrontOf(g: Graph, v: nat, n: nat, x: nat) returns (w: nat)
    requires x in Ball(g, v, n + 1) && x != v
    ensures Edge(g, v, w) && x in Ball(g, w, n)
  {
    if n == 0 {
      w := x;
    } else if x in Ball(g, v, n) {
      w := FrontOf(g, v, n - 1, x);
    } else {
      var y :| y in Ball(g, v, n) && Edge(g, y, x);
      if y == v {
        w := x;
        SelfIn(g, x, n);
      } else {
        w := FrontOf(g, v, n - 1, y);
        StepIn(g, Ball(g, w, n - 1), y, x);
      }
    }
  }

  lemma NearerBound(g: Graph, src: set<nat>, v: nat, n: nat, w: nat)
    requires n > 0 && NoSource(g, src, v, n) && Edge(g, v, w)
    ensures NoSource(g, src, w, n - 1)
  {
    hide Ball;
    forall x | x in Ball(g, w, n - 1) ensures x !in src {
      FrontIn(g, v, n - 1, w, x);
    }
  }

  /** Some step back from a node that is not itself a source lowers its depth by
      exactly one. */
  lemma StepIsNearer(g: Graph, src: set<nat>, v: nat, d: nat) returns (w: nat)
    requires d > 0 && IsDepth(g, src, v, d)
    ensures Edge(g, v, w) && IsDepth(g, src, w, d - 1)
  {
    hide Ball;
    var x :| x in Ball(g, v, d) && x in src;
    SelfIn(g, v, d - 1);
    w := FrontOf(g, v, d - 1, x);
    if d > 1 { NearerBound(g, src, v, d - 1, w); }
  }

  /** No step lowers it by more. */
  lemma NearerByOne(g: Graph, src: set<nat>, v: nat, d: nat, w: nat, e: nat)
    requires Edge(g, v, w) && e < d && IsDepth(g, src, v, d) && IsDepth(g, src, w, e)
    ensures d == e + 1
  {
    hide Ball;
    if e < d - 1 {
      NearerBound(g, src, v, d - 1, w);
      BallGrows(g, w, e, d - 2);
    }
  }

  lemma FromSourceless(g: Graph, src: set<nat>, v: nat, w: nat)
    requires Sourceless(g, src, v) && Edge(g, v, w)
    ensures Sourceless(g, src, w)
  {
    hide NoSource;
    forall n: nat ensures NoSource(g, src, w, n) {
      assert NoSource(g, src, v, n + 1);
      NearerBound(g, src, v, n + 1, w);
    }
  }

  lemma SourcelessIsNone(g: Graph, src: set<nat>, v: nat)
    requires Sourceless(g, src, v)
    ensures v !in src
  {
    assert NoSource(g, src, v, 0);
  }

  lemma SourceDepth(g: Graph, src: set<nat>, v: nat)
    requires v in src
    ensures IsDepth(g, src, v, 0)
  { }

  lemma DepthOfStep(g: Graph, src: set<nat>, v: nat, d: nat)
    requires IsDepth(g, src, v, d)
    ensures d > 0 <==> v !in src
  {
    SelfIn(g, v, if d > 0 then d - 1 else d);
  }

  lemma HasDepth(g: Graph, src: set<nat>, v: nat, d: nat)
    requires IsDepth(g, src, v, d)
    ensures !Sourceless(g, src, v)
  { }

  // ------------------------------------------------------------------ the search

  /** Every node of `done` is no source and leads only into `seen`. */
  ghost predicate Searched(g: Graph, src: set<nat>, done: set<nat>, seen: set<nat>) {
    done !! src && OneStep(g, done) <= seen
  }

  lemma {:induction false} ClosedBall(g: Graph, src: set<nat>, v: nat, d: nat, n: nat)
    requires Searched(g, src, Ball(g, v, d), Ball(g, v, d))
    ensures Ball(g, v, n) <= Ball(g, v, d)
  {
    if n == 0 {
      SelfIn(g, v, d);
    } else {
      ClosedBall(g, src, v, d, n - 1);
    }
  }

  lemma NothingFound(g: Graph, src: set<nat>, v: nat, d: nat)
    requires Searched(g, src, Ball(g, v, d), Ball(g, v, d))
    ensures Sourceless(g, src, v)
  {
    hide Ball;
    forall n: nat ensures NoSource(g, src, v, n) {
      ClosedBall(g, src, v, d, n);
    }
  }

  /** The search has been through the ball of `d`; `next` is what it adds. */
  lemma LayerDone(g: Graph, src: set<nat>, v: nat, d: nat, frontier: set<nat>, next: set<nat>, seen: set<nat>)
    requires frontier <= Ball(g, v, d)
    requires Searched(g, src, Ball(g, v, d) - frontier, Ball(g, v, d)) && Searched(g, src, frontier, seen)
    requires seen == Ball(g, v, d) + next && next <= OneStep(g, Ball(g, v, d))
    ensures seen == Ball(g, v, d + 1) && next <= Ball(g, v, d + 1) && NoSource(g, src, v, d)
    ensures Searched(g, src, Ball(g, v, d + 1) - next, Ball(g, v, d + 1))
  {
    var ball := Ball(g, v, d);
    assert Ball(g, v, d + 1) == ball + OneStep(g, ball);
    assert ball == (ball - frontier) + frontier;
    assert OneStep(g, ball) == OneStep(g, ball - frontier) + OneStep(g, frontier);
    assert seen == Ball(g, v, d + 1);
    assert OneStep(g, Ball(g, v, d + 1) - next) <= OneStep(g, ball);
  }

  lemma FoundAt(g: Graph, src: set<nat>, v: nat, d: nat, x: nat)
    requires x in Ball(g, v, d) && x in src && (d > 0 ==> NoSource(g, src, v, d - 1))
    ensures IsDepth(g, src, v, d)
  {
    hide Ball;
  }

  lemma SearchedMore(g: Graph, src: set<nat>, done: set<nat>, before: set<nat>, x: nat, seen: set<nat>)
    requires Searched(g, src, done, before) && before <= seen && x !in src
    requires forall w :: Edge(g, x, w) ==> w in seen
    ensures Searched(g, src, done + {x}, seen)
  { }
}
