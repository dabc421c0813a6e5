/**
 * Multi-dimensional budget amounts with checked arithmetic (src/budget/budget-types.ts).
 *
 * A vector is a partial map from dimension to a safe non-negative integer; an absent dimension
 * means zero.  A zero may also be stored explicitly, as the source allows, so two vectors with
 * one meaning can differ until they are compacted.
 */
module BudgetVectors {
  import opened Wrappers

  const MAX_SAFE_INTEGER: nat := 9007199254740991

  type Amount = n: nat | n <= MAX_SAFE_INTEGER

  datatype Dimension =
    | MoneyMicros | InputTokens | OutputTokens | ModelCalls | ToolCalls
    | External(name: string)

  type Vector = map<Dimension, Amount>

  datatype ArithmeticError = Overflow(dimension: Dimension) | Underflow(dimension: Dimension)

  const BUILTINS: seq<Dimension> := [MoneyMicros, InputTokens, OutputTokens, ModelCalls, ToolCalls]

  /** The meaning of a vector in one dimension. */
  function At(v: Vector, d: Dimension): Amount {
    if d in v then v[d] else 0
  }

  /** No dimension is stored with the value zero. */
  predicate Canonical(v: Vector) {
    forall d <- v.Keys :: v[d] != 0
  }

  predicate IsZero(v: Vector) {
    forall d <- v.Keys :: v[d] == 0
  }

  /** The vector with explicit zeros dropped. */
  function Compact(v: Vector): (c: Vector)
    ensures Canonical(c)
    ensures forall d :: At(c, d) == At(v, d)
  {
    map d | d in v && v[d] != 0 :: v[d]
  }

  predicate AddFits(l: Vector, r: Vector) {
    forall d <- l.Keys + r.Keys :: At(l, d) + At(r, d) <= MAX_SAFE_INTEGER
  }

  function Plus(l: Vector, r: Vector): (s: Vector)
    requires AddFits(l, r)
    ensures Canonical(s)
    ensures forall d :: At(s, d) == At(l, d) + At(r, d)
  {
    map d | d in l.Keys + r.Keys && At(l, d) + At(r, d) != 0 :: At(l, d) + At(r, d)
  }

  /** Whether required fits in available, dimension by dimension. */
  predicate Fits(required: Vector, available: Vector)
    ensures Fits(required, available) <==> forall d :: At(required, d) <= At(available, d)
  {
    var b := forall d <- required.Keys :: At(required, d) <= At(available, d);
    assert b ==> forall d :: d !in required ==> At(required, d) == 0;
    assert forall d :: At(required, d) > 0 ==> d in required.Keys;
    b
  }

  function Minus(l: Vector, r: Vector): (s: Vector)
    requires Fits(r, l)
    ensures Canonical(s)
    ensures forall d :: At(s, d) == At(l, d) - At(r, d)
  {
    assert forall d :: At(r, d) <= At(l, d);
    map d | d in l.Keys + r.Keys && At(l, d) != At(r, d) :: At(l, d) - At(r, d)
  }

  // ----- The algebra -----

  /** Equal meaning gives equal canonical vectors: the stored form is unique. */
  lemma CanonicalIsUnique(a: Vector, b: Vector)
    requires Canonical(a) && Canonical(b)
    ensures (a == b) <==> (forall d :: At(a, d) == At(b, d))
  {
    if forall d :: At(a, d) == At(b, d) {
      forall d ensures d in a <==> d in b {
        assert At(a, d) == At(b, d);
      }
      assert a.Keys == b.Keys;
      forall d | d in a ensures a[d] == b[d] {
        assert At(a, d) == At(b, d);
      }
    }
  }

  lemma AddFitsMeans(l: Vector, r: Vector)
    ensures AddFits(l, r) <==> forall d :: At(l, d) + At(r, d) <= MAX_SAFE_INTEGER
  {
  }

  lemma AddCommutes(l: Vector, r: Vector)
    ensures AddFits(l, r) <==> AddFits(r, l)
    ensures AddFits(l, r) ==> Plus(l, r) == Plus(r, l)
  {
  }

  /** Both groupings overflow together, and give one result when they do not. */
  lemma AddAssociates(a: Vector, b: Vector, c: Vector)
    ensures (AddFits(a, b) && AddFits(Plus(a, b), c)) <==> (AddFits(b, c) && AddFits(a, Plus(b, c)))
    ensures AddFits(a, b) && AddFits(Plus(a, b), c) ==> Plus(Plus(a, b), c) == Plus(a, Plus(b, c))
  {
  }

  /** Subtracting what was added gives back the original, compacted. */
  lemma SubtractUndoesAdd(a: Vector, b: Vector)
    requires AddFits(a, b)
    ensures Fits(b, Plus(a, b))
    ensures Minus(Plus(a, b), b) == Compact(a)
  {
  }

  /** Adding back what was subtracted never overflows and restores the original, compacted. */
  lemma AddUndoesSubtract(a: Vector, b: Vector)
    requires Fits(b, a)
    ensures AddFits(Minus(a, b), b)
    ensures Plus(Minus(a, b), b) == Compact(a)
  {
  }

  // ----- Sums -----

  /** The plain integer sum of one dimension over a list of vectors. */
  function SumAt(vs: seq<Vector>, d: Dimension): nat {
    if |vs| == 0 then 0 else SumAt(vs[..|vs| - 1], d) + At(vs[|vs| - 1], d)
  }

  lemma SumAtPrefix(vs: seq<Vector>, i: nat, d: Dimension)
    requires i < |vs|
    ensures SumAt(vs[..i + 1], d) == SumAt(vs[..i], d) + At(vs[i], d)
  {
    assert vs[..i + 1][..i] == vs[..i];
  }

  lemma {:induction false} SumAtMonotone(vs: seq<Vector>, i: nat, d: Dimension)
    requires i <= |vs|
    ensures SumAt(vs[..i], d) <= SumAt(vs, d)
    decreases |vs| - i
  {
    if i < |vs| {
      SumAtPrefix(vs, i, d);
      SumAtMonotone(vs, i + 1, d);
    } else {
      assert vs[..i] == vs;
    }
  }

  /** The checked sum of a list, when no partial sum overflows. */
  function Sum(vs: seq<Vector>): (r: Option<Vector>)
    ensures r.Some? ==> Canonical(r.value) && forall d :: At(r.value, d) == SumAt(vs, d)
    ensures r.None? ==> exists d :: SumAt(vs, d) > MAX_SAFE_INTEGER
  {
    if |vs| == 0 then Some(map[])
    else
      var last := vs[|vs| - 1];
      match Sum(vs[..|vs| - 1])
      case None =>
        assert exists d :: SumAt(vs, d) > MAX_SAFE_INTEGER by {
          var d :| SumAt(vs[..|vs| - 1], d) > MAX_SAFE_INTEGER;
          assert SumAt(vs, d) > MAX_SAFE_INTEGER;
        }
        None
      case Some(total) =>
        if AddFits(total, last) then Some(Plus(total, last))
        else
          assert exists d :: SumAt(vs, d) > MAX_SAFE_INTEGER by {
            var d :| d in total.Keys + last.Keys && At(total, d) + At(last, d) > MAX_SAFE_INTEGER;
            assert SumAt(vs, d) > MAX_SAFE_INTEGER;
          }
          None
  }

  // ----- The source's loops -----

  /** The external dimensions of both operands, in the set the source iterates over. */
  function Externals(l: Vector, r: Vector): set<Dimension> {
    set d | d in l.Keys + r.Keys && d.External?
  }

  /** out holds the checked sums of the dimensions seen so far and nothing else. */
  ghost predicate AddedSoFar(out: Vector, l: Vector, r: Vector, seen: set<Dimension>) {
    && (forall d <- seen :: At(l, d) + At(r, d) <= MAX_SAFE_INTEGER && At(out, d) == At(l, d) + At(r, d))
    && (forall d <- out.Keys :: d in seen && out[d] != 0)
  }

  ghost predicate SubtractedSoFar(out: Vector, l: Vector, r: Vector, seen: set<Dimension>) {
    && (forall d <- seen :: At(r, d) <= At(l, d) && At(out, d) == At(l, d) - At(r, d))
    && (forall d <- out.Keys :: d in seen && out[d] != 0)
  }

  /** The walk has met every dimension of either operand. */
  ghost predicate Complete(l: Vector, r: Vector, seen: set<Dimension>) {
    (forall i :: 0 <= i < |BUILTINS| ==> BUILTINS[i] in seen) && Externals(l, r) <= seen
  }

  lemma CompleteCovers(l: Vector, r: Vector, seen: set<Dimension>)
    requires Complete(l, r, seen)
    ensures l.Keys + r.Keys <= seen
  {
    assert BUILTINS[0] in seen && BUILTINS[1] in seen && BUILTINS[2] in seen && BUILTINS[3] in seen && BUILTINS[4] in seen;
    forall d | d in l.Keys + r.Keys ensures d in seen {
      if d.External? {
        assert d in Externals(l, r);
      }
    }
  }

  lemma AddedAll(out: Vector, l: Vector, r: Vector, seen: set<Dimension>)
    requires AddedSoFar(out, l, r, seen) && l.Keys + r.Keys <= seen
    ensures AddFits(l, r) && out == Plus(l, r)
  {
  }

  lemma SubtractedAll(out: Vector, l: Vector, r: Vector, seen: set<Dimension>)
    requires SubtractedSoFar(out, l, r, seen) && l.Keys + r.Keys <= seen
    ensures Fits(r, l) && out == Minus(l, r)
  {
  }

  /** The error names a dimension that overflows, an external one only when no built-in does. */
  ghost predicate OverflowAt(l: Vector, r: Vector, e: ArithmeticError) {
    && e.Overflow? && At(l, e.dimension) + At(r, e.dimension) > MAX_SAFE_INTEGER
    && (e.dimension.External? ==>
          forall i :: 0 <= i < |BUILTINS| ==> At(l, BUILTINS[i]) + At(r, BUILTINS[i]) <= MAX_SAFE_INTEGER)
  }

  ghost predicate UnderflowAt(l: Vector, r: Vector, e: ArithmeticError) {
    && e.Underflow? && At(l, e.dimension) < At(r, e.dimension)
    && (e.dimension.External? ==> forall i :: 0 <= i < |BUILTINS| ==> At(r, BUILTINS[i]) <= At(l, BUILTINS[i]))
  }

  /**
   * addBudgetVectors: the built-in dimensions in order, then the externals, stopping at the first
   * sum that is not a safe integer.
   */
  method AddBudgetVectors(l: Vector, r: Vector) returns (res: Result<Vector, ArithmeticError>)
    ensures res.Success? <==> AddFits(l, r)
    ensures res.Success? ==> res.value == Plus(l, r)
    ensures res.Failure? ==> OverflowAt(l, r, res.error)
  {
    var out: Vector := map[];
    ghost var seen: set<Dimension> := {};
    for i := 0 to |BUILTINS|
      invariant AddedSoFar(out, l, r, seen)
      invariant forall j :: 0 <= j < i ==> BUILTINS[j] in seen
      invariant forall d <- seen :: !d.External?
    {
      var d := BUILTINS[i];
      var value := At(l, d) + At(r, d);
      if value > MAX_SAFE_INTEGER {
        AddFitsMeans(l, r);
        return Failure(Overflow(d));
      }
      if value != 0 {
        out := out[d := value];
      }
      seen := seen + {d};
    }
    var rest := Externals(l, r);
    while rest != {}
      invariant AddedSoFar(out, l, r, seen)
      invariant forall j :: 0 <= j < |BUILTINS| ==> BUILTINS[j] in seen
      invariant Externals(l, r) <= seen + rest && rest !! seen
      decreases rest
    {
      var d :| d in rest;
      var value := At(l, d) + At(r, d);
      if value > MAX_SAFE_INTEGER {
        AddFitsMeans(l, r);
        return Failure(Overflow(d));
      }
      if value != 0 {
        out := out[d := value];
      }
      rest, seen := rest - {d}, seen + {d};
    }
    CompleteCovers(l, r, seen);
    AddedAll(out, l, r, seen);
    res := Success(out);
  }

  /** subtractBudgetVectors: the same walk, stopping at the first negative difference. */
  method SubtractBudgetVectors(l: Vector, r: Vector) returns (res: Result<Vector, ArithmeticError>)
    ensures res.Success? <==> Fits(r, l)
    ensures res.Success? ==> res.value == Minus(l, r)
    ensures res.Failure? ==> UnderflowAt(l, r, res.error)
  {
    var out: Vector := map[];
    ghost var seen: set<Dimension> := {};
    for i := 0 to |BUILTINS|
      invariant SubtractedSoFar(out, l, r, seen)
      invariant forall j :: 0 <= j < i ==> BUILTINS[j] in seen
      invariant forall d <- seen :: !d.External?
    {
      var d := BUILTINS[i];
      if At(l, d) < At(r, d) {
        return Failure(Underflow(d));
      }
      if At(l, d) != At(r, d) {
        out := out[d := At(l, d) - At(r, d)];
      }
      seen := seen + {d};
    }
    var rest := Externals(l, r);
    while rest != {}
      invariant SubtractedSoFar(out, l, r, seen)
      invariant forall j :: 0 <= j < |BUILTINS| ==> BUILTINS[j] in seen
      invariant Externals(l, r) <= seen + rest && rest !! seen
      decreases rest
    {
      var d :| d in rest;
      if At(l, d) < At(r, d) {
        return Failure(Underflow(d));
      }
      if At(l, d) != At(r, d) {
        out := out[d := At(l, d) - At(r, d)];
      }
      rest, seen := rest - {d}, seen + {d};
    }
    CompleteCovers(l, r, seen);
    SubtractedAll(out, l, r, seen);
    res := Success(out);
  }

  /**
   * sumBudgetVectors: succeeds exactly when no dimension of the total exceeds the safe range, and
   * then holds the plain integer sum, whatever the order of the list.
   */
  method SumBudgetVectors(vs: seq<Vector>) returns (res: Result<Vector, ArithmeticError>)
    ensures res.Success? <==> forall d :: SumAt(vs, d) <= MAX_SAFE_INTEGER
    ensures res.Success? ==> Some(res.value) == Sum(vs)
    ensures res.Failure? ==> Sum(vs) == None
  {
    var total: Vector := map[];
    for i := 0 to |vs|
      invariant Some(total) == Sum(vs[..i])
    {
      assert vs[..i + 1][..i] == vs[..i] && vs[..i + 1][i] == vs[i];
      var next := AddBudgetVectors(total, vs[i]);
      if next.Failure? {
        assert Sum(vs[..i + 1]) == None;
        var d :| SumAt(vs[..i + 1], d) > MAX_SAFE_INTEGER;
        SumAtMonotone(vs, i + 1, d);
        return Failure(next.error);
      }
      total := next.value;
    }
    assert vs[..|vs|] == vs;
    res := Success(total);
  }
}
