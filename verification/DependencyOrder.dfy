/** The depth-first ordering of work items (src/program/admission-controller.ts). */
module DependencyOrder {
  import opened Wrappers
  import opened Graphs

  type Id = string
  type Dependencies = map<Id, seq<Id>>

  /** An edge from each item to each of its dependencies. */
  function Edges(g: Dependencies): set<(Id, Id)> {
    set i, d | i in g && d in g[i] :: (i, d)
  }

  predicate Closed(g: Dependencies) {
    forall i <- g.Keys :: forall d <- g[i] :: d in g
  }

  ghost predicate Before(order: seq<Id>, d: Id, i: nat) {
    exists j :: 0 <= j < i && j < |order| && order[j] == d
  }

  /** Every item comes after everything it depends on. */
  ghost predicate DependenciesFirst(g: Dependencies, order: seq<Id>) {
    forall i, d :: 0 <= i < |order| && order[i] in g && d in g[order[i]] ==> Before(order, d, i)
  }

  /** A permutation of the items with every dependency earlier. */
  ghost predicate IsSchedule(g: Dependencies, order: seq<Id>) {
    && Distinct(order) && (forall i :: i in order <==> i in g) && DependenciesFirst(g, order)
  }

  ghost function Position(order: seq<Id>, i: Id): int {
    if j :| 0 <= j < |order| && order[j] == i then j else -1
  }

  /** A graph that has a schedule has no cycle. */
  lemma ScheduleIsAcyclic(g: Dependencies, order: seq<Id>)
    requires IsSchedule(g, order)
    ensures Acyclic(Edges(g))
  {
    var edges, rank := Edges(g), (i: Id) => Position(order, i);
    forall x, y | (x, y) in edges ensures rank(y) < rank(x) {
      var i := Position(order, x);
      assert order[i] == x && Before(order, y, i);
      var j :| 0 <= j < i && order[j] == y;
      assert Position(order, y) == j;
    }
    RankedIsAcyclic(edges, rank);
  }

  class DepthFirst {
    const graph: Dependencies
    var visiting: set<Id>
    var visited: set<Id>
    var ordered: seq<Id>

    constructor (graph: Dependencies)
      ensures this.graph == graph && visiting == {} && visited == {} && ordered == []
    {
      this.graph := graph;
      visiting, visited, ordered := {}, {}, [];
    }

    /** The items ordered so far are the visited ones, each after its dependencies. */
    ghost predicate Valid()
      reads this
    {
      && Closed(graph) && visiting <= graph.Keys && visited <= graph.Keys && visiting !! visited
      && Distinct(ordered) && (forall i :: i in ordered <==> i in visited) && DependenciesFirst(graph, ordered)
    }

    /** Visits an item after its dependencies; fails when it meets an item that is being visited. */
    method Visit(item: Id) returns (ok: bool)
      requires Valid() && item in graph
      requires forall v :: v in visiting ==> Reaches(Edges(graph), v, item)
      modifies this
      ensures ok ==> Valid() && visiting == old(visiting) && old(visited) <= visited && item in visited
      ensures !ok ==> !Acyclic(Edges(graph))
      decreases |graph.Keys - visiting|, 0
    {
      if item in visited {
        return true;
      }
      if item in visiting {
        assert Reaches(Edges(graph), item, item);
        return false;
      }
      assert graph.Keys - (visiting + {item}) == (graph.Keys - visiting) - {item};
      visiting := visiting + {item};
      ok := VisitDependencies(item);
      if ok {
        Close(item);
      }
    }

    /** The loop over the dependencies of the item that is being visited. */
    method VisitDependencies(item: Id) returns (ok: bool)
      requires Valid() && item in visiting
      requires forall v :: v in visiting ==> v == item || Reaches(Edges(graph), v, item)
      modifies this
      ensures ok ==> Valid() && visiting == old(visiting) && old(visited) <= visited && forall d <- graph[item] :: d in visited
      ensures !ok ==> !Acyclic(Edges(graph))
      decreases |graph.Keys - visiting|, 1
    {
      for i := 0 to |graph[item]|
        invariant Valid() && visiting == old(visiting) && old(visited) <= visited
        invariant forall j :: 0 <= j < i ==> graph[item][j] in visited
      {
        var dependency := graph[item][i];
        forall v | v in visiting ensures Reaches(Edges(graph), v, dependency) {
          ReachesFurther(Edges(graph), v, item, dependency);
        }
        ok := Visit(dependency);
        if !ok {
          return;
        }
      }
      ok := true;
    }

    /** All dependencies are done: the item is next. */
    method Close(item: Id)
      requires Valid() && item in visiting && forall d <- graph[item] :: d in visited
      modifies this
      ensures Valid() && visiting == old(visiting) - {item} && visited == old(visited) + {item}
    {
      AppendKeepsOrder(graph, ordered, item);
      visiting, visited := visiting - {item}, visited + {item};
      ordered := ordered + [item];
    }
  }

  lemma AppendKeepsOrder(g: Dependencies, order: seq<Id>, item: Id)
    requires Distinct(order) && DependenciesFirst(g, order) && item !in order && item in g && forall d <- g[item] :: d in order
    ensures Distinct(order + [item]) && DependenciesFirst(g, order + [item])
  {
    var longer := order + [item];
    forall i, d | 0 <= i < |longer| && longer[i] in g && d in g[longer[i]] ensures Before(longer, d, i) {
      if i < |order| {
        assert longer[i] == order[i] && Before(order, d, i);
        var j :| 0 <= j < i && order[j] == d;
        assert longer[j] == d;
      } else {
        var j :| 0 <= j < |order| && order[j] == d;
        assert longer[j] == d;
      }
    }
  }

  /** The order of all items, or a cycle. */
  method Order(items: seq<Id>, g: Dependencies) returns (order: Option<seq<Id>>)
    requires Closed(g) && forall i :: i in items <==> i in g
    ensures order.Some? ==> IsSchedule(g, order.value)
    ensures order.Some? <==> Acyclic(Edges(g))
  {
    var search := new DepthFirst(g);
    for k := 0 to |items|
      invariant search.Valid() && search.visiting == {} && search.graph == g && fresh(search)
      invariant forall j :: 0 <= j < k ==> items[j] in search.visited
    {
      assert items[k] in items;
      var ok := search.Visit(items[k]);
      if !ok {
        return None;
      }
    }
    forall i ensures i in search.ordered <==> i in g {
      if i in g {
        assert i in items;
      }
    }
    ScheduleIsAcyclic(g, search.ordered);
    order := Some(search.ordered);
  }
}
