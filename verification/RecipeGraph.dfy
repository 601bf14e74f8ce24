/** The cycle check of the recipe graph: a depth-first walk over two sets that it updates in place. */
module RecipeGraph {
  type Graph = map<int, set<int>>

  function Children(g: Graph, node: int): set<int> { if node in g then g[node] else {} }

  /** Every item the graph mentions. */
  function Items(g: Graph): set<int> { g.Keys + set n, c | n in g && c in g[n] :: c }

  ghost predicate IsPath(g: Graph, p: seq<int>) {
    forall i | 0 <= i < |p| - 1 :: p[i + 1] in Children(g, p[i])
  }

  ghost predicate IsCycle(g: Graph, p: seq<int>) { |p| >= 2 && p[0] == p[|p| - 1] && IsPath(g, p) }

  ghost predicate HasCycle(g: Graph) { exists p :: IsCycle(g, p) }

  ghost predicate Distinct(s: seq<int>) { forall i, j | 0 <= i < j < |s| :: s[i] != s[j] }

  /** Every item comes after all of its children. */
  ghost predicate ChildrenFirst(g: Graph, order: seq<int>) {
    forall i | 0 <= i < |order| :: forall c | c in Children(g, order[i]) :: c in order[..i]
  }

  lemma PathSuffixIsCycle(g: Graph, path: seq<int>, node: int, i: nat)
    requires IsPath(g, path) && i < |path| && path[i] == node && node in Children(g, path[|path| - 1])
    ensures IsCycle(g, path[i..] + [node])
  {
    var p := path[i..] + [node];
    forall k | 0 <= k < |p| - 1 ensures p[k + 1] in Children(g, p[k]) {
      assert p[k] == path[i + k];
      if k < |p| - 2 { assert p[k + 1] == path[i + k + 1]; }
    }
  }

  /** Along a path inside the order, positions go down. */
  lemma {:induction false} PathDescends(g: Graph, order: seq<int>, p: seq<int>, at: nat, k: nat) returns (pos: nat)
    requires ChildrenFirst(g, order) && IsPath(g, p) && 0 < |p| && k < |p| && at < |order| && order[at] == p[0]
    ensures pos < |order| && order[pos] == p[k] && (if k == 0 then pos == at else pos < at)
  {
    if k == 0 {
      pos := at;
    } else {
      var before := PathDescends(g, order, p, at, k - 1);
      assert p[(k - 1) + 1] in Children(g, p[k - 1]);
      assert p[k] in Children(g, order[before]);
      pos :| 0 <= pos < before && order[pos] == p[k];
    }
  }

  lemma OrderedHasNoCycle(g: Graph, order: seq<int>)
    requires Distinct(order) && ChildrenFirst(g, order) && forall n | n in g :: n in order
    ensures !HasCycle(g)
  {
    forall p ensures !IsCycle(g, p) {
      if IsCycle(g, p) {
        assert p[0 + 1] in Children(g, p[0]);
        var at :| 0 <= at < |order| && order[at] == p[0];
        var pos := PathDescends(g, order, p, at, |p| - 1);
        assert false;
      }
    }
  }

  class CycleCheck {
    const graph: Graph
    var visiting: set<int>
    var visited: set<int>
    ghost var path: seq<int>
    ghost var order: seq<int>
    ghost var expanded: seq<int>

    constructor (graph: Graph)
      ensures this.graph == graph && Valid() && visiting == {} && visited == {} && path == [] && order == [] && expanded == []
    {
      this.graph, visiting, visited, path, order, expanded := graph, {}, {}, [], [], [];
    }

    /** The walk's own items form a path; the finished ones are ordered children first. */
    ghost predicate Valid() reads this {
      && IsPath(graph, path) && Distinct(path) && (forall n :: n in path <==> n in visiting)
      && Distinct(order) && ChildrenFirst(graph, order) && (forall n :: n in order <==> n in visited)
      && visiting !! visited && visiting <= Items(graph)
      && Distinct(expanded) && forall n | n in expanded :: n in visiting || n in visited
    }

    /** False when the walk found a cycle. Every item is expanded at most once over the whole walk. */
    method Visit(node: int) returns (ok: bool)
      requires Valid() && node in Items(graph)
      requires path != [] ==> node in Children(graph, path[|path| - 1])
      modifies this
      ensures !ok ==> HasCycle(graph)
      ensures ok ==> Valid() && visiting == old(visiting) && path == old(path) && old(visited) <= visited && node in visited
      ensures Distinct(expanded)
      decreases |Items(graph) - visiting|, 0
    {
      hide IsPath, ChildrenFirst, Distinct, Children, Items;
      if node in visiting {
        ghost var i :| 0 <= i < |path| && path[i] == node;
        PathSuffixIsCycle(graph, path, node, i);
        return false;
      }
      if node in visited { return true; }
      ShrinksWith(Items(graph), visiting, node);
      Enter(node);
      ok := VisitChildren(node);
      if ok { Leave(node); }
    }

    method VisitChildren(node: int) returns (ok: bool)
      requires Valid() && path != [] && path[|path| - 1] == node
      modifies this
      ensures !ok ==> HasCycle(graph)
      ensures ok ==> Valid() && visiting == old(visiting) && path == old(path) && old(visited) <= visited && Children(graph, node) <= visited
      ensures Distinct(expanded)
      decreases |Items(graph) - visiting|, 1
    {
      hide IsPath, ChildrenFirst, Distinct, Items;
      var children := Children(graph, node);
      while children != {}
        invariant Valid() && path == old(path) && visiting == old(visiting) && old(visited) <= visited
        invariant children <= Children(graph, node) && Children(graph, node) - children <= visited
        decreases |children|
      {
        SomeMember(children);
        var child: int :| child in children;
        ChildIsItem(graph, node, child);
        ok := Visit(child);
        if !ok { return; }
        children := children - {child};
      }
      return true;
    }

    method Enter(node: int)
      requires Valid() && node in Items(graph) && node !in visiting && node !in visited
      requires path != [] ==> node in Children(graph, path[|path| - 1])
      modifies this
      ensures Valid() && visiting == old(visiting) + {node} && path == old(path) + [node]
      ensures visited == old(visited) && order == old(order) && expanded == old(expanded) + [node]
    {
      visiting := visiting + {node};
      path := path + [node];
      expanded := expanded + [node];
    }

    method Leave(node: int)
      requires Valid() && path != [] && path[|path| - 1] == node && Children(graph, node) <= visited
      modifies this
      ensures Valid() && visiting == old(visiting) - {node} && path == old(path)[..|old(path)| - 1]
      ensures visited == old(visited) + {node} && order == old(order) + [node] && expanded == old(expanded)
    {
      hide ChildrenFirst, IsPath, Children, Items;
      OneMoreFinished(graph, order, node);
      PathWithoutLast(graph, path);
      visiting := visiting - {node};
      visited := visited + {node};
      order := order + [node];
      path := path[..|path| - 1];
      assert old(path) == path + [node];
    }

    /** Raises (false) exactly when the graph contains a directed cycle. */
    method AssertAcyclic() returns (ok: bool)
      requires Valid() && visiting == {} && visited == {} && path == [] && expanded == []
      modifies this
      ensures ok <==> !HasCycle(graph)
      ensures Distinct(expanded)
    {
      var todo := graph.Keys;
      while todo != {}
        invariant Valid() && path == [] && visiting == {}
        invariant todo <= graph.Keys && graph.Keys - todo <= visited
        decreases |todo|
      {
        SomeMember(todo);
        var node: int :| node in todo;
        ok := Visit(node);
        if !ok { return; }
        todo := todo - {node};
      }
      OrderedHasNoCycle(graph, order);
      return true;
    }
  }

  lemma OneMoreFinished(g: Graph, order: seq<int>, node: int)
    requires ChildrenFirst(g, order) && forall c | c in Children(g, node) :: c in order
    ensures ChildrenFirst(g, order + [node])
  {
    var longer := order + [node];
    forall i, c | 0 <= i < |longer| && c in Children(g, longer[i]) ensures c in longer[..i] {
      if i < |order| { assert longer[..i] == order[..i]; } else { assert longer[..i] == order; }
    }
  }

  lemma PathWithoutLast(g: Graph, path: seq<int>)
    requires IsPath(g, path) && path != []
    ensures IsPath(g, path[..|path| - 1])
  {}

  lemma SomeMember(s: set<int>)
    requires s != {}
    ensures exists x :: x in s
  {
    assert (forall x :: x !in s) ==> s == {};
  }

  lemma ChildIsItem(g: Graph, node: int, child: int)
    requires child in Children(g, node)
    ensures child in Items(g)
  {}

  lemma ShrinksWith(all: set<int>, stack: set<int>, node: int)
    requires node in all && node !in stack
    ensures |all - (stack + {node})| < |all - stack|
  {
    assert all - (stack + {node}) == (all - stack) - {node};
  }
}
