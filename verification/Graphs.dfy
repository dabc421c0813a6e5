/** Paths and cycles in a finite directed graph, given by its set of edges. */
module Graphs {

  ghost predicate Path<T(!new)>(edges: set<(T, T)>, a: T, b: T, n: nat)
    decreases n
  {
    if n == 0 then a == b else exists x :: (a, x) in edges && Path(edges, x, b, n - 1)
  }

  ghost predicate Acyclic<T(!new)>(edges: set<(T, T)>) {
    forall i, n: nat :: n > 0 ==> !Path(edges, i, i, n)
  }

  /** There is a path of at least one edge. */
  ghost predicate Reaches<T(!new)>(edges: set<(T, T)>, a: T, b: T) {
    exists n: nat :: n > 0 && Path(edges, a, b, n)
  }

  lemma {:induction false} PathExtends<T(!new)>(edges: set<(T, T)>, a: T, b: T, c: T, n: nat)
    requires Path(edges, a, b, n) && (b, c) in edges
    ensures Path(edges, a, c, n + 1)
    decreases n
  {
    if n == 0 {
      assert Path(edges, c, c, 0);
    } else {
      var x :| (a, x) in edges && Path(edges, x, b, n - 1);
      PathExtends(edges, x, b, c, n - 1);
    }
  }

  lemma ReachesFurther<T(!new)>(edges: set<(T, T)>, a: T, b: T, c: T)
    requires (a == b || Reaches(edges, a, b)) && (b, c) in edges
    ensures Reaches(edges, a, c)
  {
    if a == b {
      assert Path(edges, c, c, 0);
      assert Path(edges, a, c, 1);
    } else {
      var n: nat :| n > 0 && Path(edges, a, b, n);
      PathExtends(edges, a, b, c, n);
    }
  }

  /** A graph whose edges all go from a higher rank to a lower one has no cycle. */
  lemma {:induction false} RankFalls<T(!new)>(edges: set<(T, T)>, rank: T -> int, a: T, b: T, n: nat)
    requires forall x, y :: (x, y) in edges ==> rank(y) < rank(x)
    requires Path(edges, a, b, n)
    ensures n > 0 ==> rank(b) < rank(a)
    decreases n
  {
    if n > 0 {
      var x :| (a, x) in edges && Path(edges, x, b, n - 1);
      RankFalls(edges, rank, x, b, n - 1);
    }
  }

  lemma RankedIsAcyclic<T(!new)>(edges: set<(T, T)>, rank: T -> int)
    requires forall x, y :: (x, y) in edges ==> rank(y) < rank(x)
    ensures Acyclic(edges)
  {
    forall i, n: nat | n > 0 ensures !Path(edges, i, i, n) {
      if Path(edges, i, i, n) {
        RankFalls(edges, rank, i, i, n);
      }
    }
  }

  /** No path leaves a node without edges. */
  lemma DeadEnd<T(!new)>(edges: set<(T, T)>, k: T, z: T, n: nat)
    requires forall y :: (k, y) !in edges
    ensures Path(edges, k, z, n) ==> z == k
  {
  }

  /** A path of the larger graph that does not end where the new edges point is one of the smaller. */
  lemma {:induction false} PathIsOld<T(!new)>(small: set<(T, T)>, large: set<(T, T)>, k: T, a: T, z: T, n: nat)
    requires forall x, y :: (x, y) in large && (x, y) !in small ==> y == k
    requires forall y :: (k, y) !in large
    requires z != k && Path(large, a, z, n)
    ensures Path(small, a, z, n)
    decreases n
  {
    if n > 0 {
      var x :| (a, x) in large && Path(large, x, z, n - 1);
      DeadEnd(large, k, z, n - 1);
      PathIsOld(small, large, k, x, z, n - 1);
    }
  }

  /** Pointing nodes at a node that points nowhere closes no cycle. */
  lemma StaysAcyclic<T(!new)>(small: set<(T, T)>, large: set<(T, T)>, k: T)
    requires Acyclic(small)
    requires forall x, y :: (x, y) in large && (x, y) !in small ==> y == k
    requires forall y :: (k, y) !in large
    ensures Acyclic(large)
  {
    forall i, n: nat | n > 0 ensures !Path(large, i, i, n) {
      if Path(large, i, i, n) && i != k {
        PathIsOld(small, large, k, i, i, n);
      }
    }
  }
}
