/** Dependency graphs and the depth-first cycle check of `ExecutionPlan._assert_acyclic`. */
module PlanGraph {
  import opened Common

  /** Step ids with their dependencies. */
  type Graph = map<string, seq<string>>

  predicate Edge(g: Graph, x: string, y: string) {
    x in g && y in g[x]
  }

  ghost predicate IsPath(g: Graph, p: seq<string>) {
    p != [] && forall i :: 0 <= i < |p| - 1 ==> Edge(g, p[i], p[i + 1])
  }

  ghost predicate IsCycle(g: Graph, p: seq<string>) {
    |p| >= 2 && IsPath(g, p) && p[0] == p[|p| - 1]
  }

  ghost predicate Acyclic(g: Graph) {
    forall p :: !IsCycle(g, p)
  }

  ghost predicate Closed(g: Graph) {
    forall x, y :: Edge(g, x, y) ==> y in g
  }

  /** Every listed step comes after its dependencies. */
  ghost predicate InDependencyOrder(g: Graph, order: seq<string>) {
    && Distinct(order)
    && (forall i :: 0 <= i < |order| ==> order[i] in g)
    && (forall i, d :: 0 <= i < |order| && d in g[order[i]] ==> d in order[..i])
  }

  /** What it takes to list one more step. */
  ghost predicate MayFollow(g: Graph, order: seq<string>, x: string) {
    x in g && x !in order && forall d :: d in g[x] ==> d in order
  }

  lemma OrderGrows(g: Graph, order: seq<string>, x: string)
    ensures InDependencyOrder(g, order + [x]) <==> InDependencyOrder(g, order) && MayFollow(g, order, x)
  {
    var longer := order + [x];
    assert forall i :: 0 <= i < |order| ==> longer[i] == order[i] && longer[..i] == order[..i];
    assert longer[|order|] == x && longer[..|order|] == order;
    if InDependencyOrder(g, order) && MayFollow(g, order, x) {
      forall i, d | 0 <= i < |longer| && d in g[longer[i]] ensures d in longer[..i] {
        assert longer[..i] == order[..i];
      }
    }
  }

  /** Along a path, positions in a dependency order go down. */
  lemma {:induction false} PathDescends(g: Graph, order: seq<string>, p: seq<string>, a: nat) returns (b: nat)
    requires InDependencyOrder(g, order) && IsPath(g, p)
    requires a < |order| && order[a] == p[0]
    ensures b < |order| && order[b] == p[|p| - 1]
    ensures b + |p| - 1 <= a
    decreases |p|
  {
    if |p| == 1 {
      b := a;
    } else {
      assert Edge(g, p[0], p[1]);
      var c :| 0 <= c < a && order[c] == p[1];
      assert IsPath(g, p[1..]) by {
        forall i | 0 <= i < |p| - 2 ensures Edge(g, p[1..][i], p[1..][i + 1]) {
          assert Edge(g, p[i + 1], p[i + 2]);
        }
      }
      b := PathDescends(g, order, p[1..], c);
    }
  }

  lemma OrderExcludesCycles(g: Graph, order: seq<string>)
    requires InDependencyOrder(g, order) && forall x :: x in g ==> x in order
    ensures Acyclic(g)
  {
    forall p ensures !IsCycle(g, p) {
      if IsCycle(g, p) {
        assert Edge(g, p[0], p[1]);
        var a :| 0 <= a < |order| && order[a] == p[0];
        var b := PathDescends(g, order, p, a);
      }
    }
  }

  /** `visiting` and `visited`, with the walk so far and the order in which steps were finished. */
  class CycleCheck {
    const g: Graph
    var visiting: set<string>
    var visited: set<string>
    ghost var walk: seq<string>
    ghost var finished: seq<string>

    ghost predicate Valid()
      reads this
    {
      && Closed(g)
      && visiting <= g.Keys && visiting !! visited
      && (forall x :: x in walk <==> x in visiting)
      && (forall x :: x in finished <==> x in visited)
      && (walk != [] ==> IsPath(g, walk))
      && InDependencyOrder(g, finished)
    }

    constructor (g: Graph)
      requires Closed(g)
      ensures this.g == g && Valid() && walk == [] && finished == []
    {
      this.g, visiting, visited := g, {}, {};
      walk, finished := [], [];
    }

    /** Visits one step. `ok` is false where the source raises; then `cycle` is the evidence. */
    method Visit(id: string) returns (ok: bool, ghost cycle: seq<string>)
      requires Valid() && id in g
      requires walk != [] ==> Edge(g, walk[|walk| - 1], id)
      modifies this
      ensures !ok ==> IsCycle(g, cycle) && forall x :: x in cycle ==> x in visiting
      ensures ok ==> Valid() && walk == old(walk) && visiting == old(visiting)
      ensures ok ==> id in visited && old(visited) <= visited && old(finished) <= finished
      decreases g.Keys - visiting
    {
      cycle := [];
      if id in visiting {
        ghost var k :| 0 <= k < |walk| && walk[k] == id;
        cycle := walk[k..] + [id];
        forall i | 0 <= i < |cycle| - 1 ensures Edge(g, cycle[i], cycle[i + 1]) {
          assert cycle[i] == walk[k + i];
        }
        return false, cycle;
      }
      if id in visited { return true, cycle; }
      visiting := visiting + {id};
      walk := walk + [id];
      ghost var here := walk;
      ghost var open := visiting;
      var i := 0;
      while i < |g[id]|
        invariant 0 <= i <= |g[id]|
        invariant Valid() && walk == here && visiting == open
        invariant old(visited) <= visited && old(finished) <= finished
        invariant forall d :: d in g[id][..i] ==> d in visited
      {
        assert Edge(g, id, g[id][i]);
        ok, cycle := Visit(g[id][i]);
        if !ok { return; }
        i := i + 1;
      }
      assert g[id][..i] == g[id];
      OrderGrows(g, finished, id);
      visiting := visiting - {id};
      visited := visited + {id};
      walk := walk[..|walk| - 1];
      finished := finished + [id];
      return true, cycle;
    }
  }

  /** The check accepts exactly the acyclic graphs. `ids` are the steps in declaration order. */
  method AssertAcyclic(g: Graph, ids: seq<string>) returns (ok: bool)
    requires Closed(g) && forall x :: x in g <==> x in ids
    ensures ok <==> Acyclic(g)
  {
    var check := new CycleCheck(g);
    var i := 0;
    while i < |ids|
      invariant 0 <= i <= |ids|
      invariant check.Valid() && check.g == g && check.walk == []
      invariant forall x :: x in ids[..i] ==> x in check.visited
    {
      ghost var cycle;
      ok, cycle := check.Visit(ids[i]);
      if !ok { return; }
      i := i + 1;
    }
    ok := true;
    OrderExcludesCycles(g, check.finished);
  }

  /** In an acyclic graph, any set of steps has one that depends on no other of the set. */
  lemma HasMinimal(g: Graph, u: set<string>) returns (x: string)
    requires Acyclic(g) && u != {} && u <= g.Keys
    ensures x in u && forall d :: d in g[x] ==> d !in u
  {
    var start :| start in u;
    x := Descend(g, u, [start]);
  }

  lemma {:induction false} Descend(g: Graph, u: set<string>, p: seq<string>) returns (x: string)
    requires Acyclic(g) && u <= g.Keys
    requires IsPath(g, p) && forall y :: y in p ==> y in u
    ensures x in u && forall d :: d in g[x] ==> d !in u
    decreases u - (set y | y in p)
  {
    x := p[|p| - 1];
    if d :| d in g[x] && d in u {
      if d in p {
        var k :| 0 <= k < |p| && p[k] == d;
        var cycle := p[k..] + [d];
        forall i | 0 <= i < |cycle| - 1 ensures Edge(g, cycle[i], cycle[i + 1]) {
          assert cycle[i] == p[k + i];
        }
        assert IsCycle(g, cycle);
      } else {
        assert d in p + [d] && forall y :: y in p ==> y in p + [d];
        assert d in u - (set y | y in p) && d !in u - (set y | y in p + [d]);
        x := Descend(g, u, p + [d]);
      }
    }
  }
}
