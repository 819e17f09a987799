/** What the solver is told of a lattice, which laws each of its results needs, and
    the executions that soundness is about. */
module AbstractDomain {
  import opened Wrappers

  /** A guard on one outgoing edge, phrased over the branch condition. */
  datatype Guard =
    | CondIs(truth: bool)
    | CondEquals(value: int)
    | CondNotAnyOf(values: seq<int>)

  /** A domain together with a run's hooks: `seed` and `hook` override the
      initial value of a value and the transfer of an instruction. */
  datatype Domain<!D> = Domain(
    bottom: D,
    top: D,
    join: (D, D) -> D,
    widen: (D, D) -> D,
    le: (D, D) -> bool,
    abstractConst: int -> D,
    transfer: (nat, seq<D>) -> D,
    edgeFeasible: (D, Guard) -> bool,
    seed: nat -> Option<D>,
    hook: (nat, seq<D>) -> Option<D>)
  {
    /** The hook's result if it has one, else the domain's transfer. */
    function Apply(i: nat, operands: seq<D>): D {
      match hook(i, operands)
      case Some(d) => d
      case None => transfer(i, operands)
    }
  }

  /** A preorder with a least element in which joins and widenings are upper
      bounds: all that soundness needs. */
  ghost predicate UpperBounds<D(!new)>(dom: Domain<D>) {
    && (forall a :: dom.le(a, a))
    && (forall a, b, c :: dom.le(a, b) && dom.le(b, c) ==> dom.le(a, c))
    && (forall a :: dom.le(dom.bottom, a) && dom.le(a, dom.top))
    && (forall a, b {:trigger dom.join(a, b)} :: dom.le(a, dom.join(a, b)) && dom.le(b, dom.join(a, b)))
    && (forall a, b {:trigger dom.widen(a, b)} :: dom.le(a, dom.widen(a, b)) && dom.le(b, dom.widen(a, b)))
  }

  ghost predicate PointwiseLe<D(!new)>(dom: Domain<D>, a: seq<D>, b: seq<D>) {
    |a| == |b| && forall k :: 0 <= k < |a| ==> dom.le(a[k], b[k])
  }

  /** Transfer is monotone in its operands. */
  ghost predicate MonotoneTransfer<D(!new)>(dom: Domain<D>) {
    forall i: nat, a: seq<D>, b: seq<D> :: PointwiseLe(dom, a, b) ==> dom.le(dom.Apply(i, a), dom.Apply(i, b))
  }

  /** The order is antisymmetric, joins are least, widening is the join (the
      finite-height default), and feasibility only grows. */
  ghost predicate LeastJoins<D(!new)>(dom: Domain<D>) {
    && (forall a, b :: dom.le(a, b) && dom.le(b, a) ==> a == b)
    && (forall a, b, c {:trigger dom.join(a, b), dom.le(a, c)} ::
          dom.le(a, c) && dom.le(b, c) ==> dom.le(dom.join(a, b), c))
    && (forall a, b :: dom.widen(a, b) == dom.join(a, b))
    && (forall a, b, g :: dom.le(a, b) && dom.edgeFeasible(a, g) ==> dom.edgeFeasible(b, g))
  }

  /** Every strict step up the lattice lowers `height`. */
  ghost predicate FiniteHeight<D(!new)>(dom: Domain<D>, height: D -> nat) {
    forall a, b :: dom.le(a, b) && a != b ==> height(b) < height(a)
  }

  /** The concrete side: concretization, instruction semantics (a relation, so
      that loads and calls may be nondeterministic), what a branch and a switch see in
      a value, and the values of constants. */
  datatype Concrete<!D, !C> = Concrete(
    contains: (D, C) -> bool,
    evaluates: (nat, seq<C>, C) -> bool,
    truth: C -> bool,
    number: C -> int,
    constant: int -> C)

  ghost predicate ContainsAll<D(!new), C(!new)>(sem: Concrete<D, C>, ds: seq<D>, cs: seq<C>) {
    |ds| == |cs| && forall k :: 0 <= k < |ds| ==> sem.contains(ds[k], cs[k])
  }

  /** Concretization is monotone, top is everything, a constant's abstraction holds it,
      and transfer and edge feasibility are sound. */
  ghost predicate SoundDomain<D(!new), C(!new)>(dom: Domain<D>, sem: Concrete<D, C>) {
    && (forall a, b, c {:trigger dom.le(a, b), sem.contains(a, c)} :: dom.le(a, b) && sem.contains(a, c) ==> sem.contains(b, c))
    && (forall c :: sem.contains(dom.top, c))
    && (forall i: nat, ds: seq<D>, cs: seq<C>, r: C ::
          ContainsAll(sem, ds, cs) && sem.evaluates(i, cs, r) ==> sem.contains(dom.Apply(i, ds), r))
    && (forall k: int :: sem.contains(dom.abstractConst(k), sem.constant(k)))
    && (forall d, c :: sem.contains(d, c) ==> dom.edgeFeasible(d, CondIs(sem.truth(c))))
    && (forall d, c :: sem.contains(d, c) ==> dom.edgeFeasible(d, CondEquals(sem.number(c))))
    && (forall d, c, vs: seq<int> :: sem.contains(d, c) && sem.number(c) !in vs ==> dom.edgeFeasible(d, CondNotAnyOf(vs)))
  }
}
