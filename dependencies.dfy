/**
 * The dependency map between the module groups of the background service
 * system, and the startup-order claims its documentation makes: the API
 * server starts first, "all" starts last, and the map has no cycles.
 */
module BackgroundDeps {
  import opened Basics

  const BackgroundServices := "background-services"
  const Core := "core"
  const All := "all"

  /** A module dependency map: each module with the modules it depends on. */
  type Graph = map<string, seq<string>>

  /** What is assumed of the API server module's name, whose value is defined elsewhere. */
  predicate IsApiServerName(apiServer: string)
  {
    apiServer != BackgroundServices && apiServer != Core && apiServer != All
  }

  /** dependencyMap, with `apiServer` the name of the API server module: the
      four module groups, and every dependency one of them. */
  function DependencyMap(apiServer: string): (g: Graph)
    ensures g.Keys == {apiServer, Core, BackgroundServices, All}
    ensures forall m, d :: m in g && d in g[m] ==> d in g
  {
    map[apiServer := [], Core := [apiServer], BackgroundServices := [], All := [Core, BackgroundServices]]
  }

  /** Every dependency is itself a module of the map. */
  ghost predicate Closed(g: Graph)
  {
    forall m, d :: m in g && d in g[m] ==> d in g
  }

  /** A sequence of modules each depending on the next. */
  ghost predicate IsChain(g: Graph, p: seq<string>)
  {
    p != [] && (forall i :: 0 <= i < |p| ==> p[i] in g)
    && forall i :: 0 <= i < |p| - 1 ==> p[i + 1] in g[p[i]]
  }

  /** No chain of dependencies leads from a module back to itself. */
  ghost predicate Acyclic(g: Graph)
  {
    forall p :: IsChain(g, p) && |p| >= 2 ==> p[0] != p[|p| - 1]
  }

  /** `order` lists every module once, each after all of its dependencies. */
  ghost predicate IsStartupOrder(g: Graph, order: seq<string>)
  {
    NoDup(order)
    && (forall m :: m in g <==> m in order)
    && forall i, j :: 0 <= i < |order| && 0 <= j < |order| && order[j] in g[order[i]] ==> j < i
  }

  function IndexOf(order: seq<string>, m: string): (i: nat)
    requires m in order
    ensures i < |order| && order[i] == m
  {
    if order[0] == m then 0 else 1 + IndexOf(order[1..], m)
  }

  /** Along a chain, the position in a startup order strictly decreases. */
  lemma {:induction false} ChainDescends(g: Graph, order: seq<string>, p: seq<string>)
    requires IsStartupOrder(g, order) && IsChain(g, p) && |p| >= 2
    ensures IndexOf(order, p[|p| - 1]) < IndexOf(order, p[0])
    decreases |p|
  {
    var i0, i1 := IndexOf(order, p[0]), IndexOf(order, p[1]);
    assert order[i1] in g[order[i0]];
    if |p| > 2 {
      var q := p[1..];
      assert IsChain(g, q) by {
        forall i | 0 <= i < |q| - 1 ensures q[i + 1] in g[q[i]] {
          assert q[i] == p[i + 1] && q[i + 1] == p[i + 2];
        }
      }
      ChainDescends(g, order, q);
    }
  }

  /** A map that has a startup order has no cycles. */
  lemma StartupOrderAcyclic(g: Graph, order: seq<string>)
    requires IsStartupOrder(g, order)
    ensures Acyclic(g)
  {
    forall p | IsChain(g, p) && |p| >= 2 ensures p[0] != p[|p| - 1] {
      ChainDescends(g, order, p);
    }
  }

  /** The map's modules and dependencies are exactly those its documentation lists,
      and every dependency is a module of the map. */
  lemma DependencyMapShape(apiServer: string)
    requires IsApiServerName(apiServer)
    ensures var g := DependencyMap(apiServer);
      g.Keys == {apiServer, Core, BackgroundServices, All}
      && g[apiServer] == [] && g[BackgroundServices] == []
      && g[Core] == [apiServer] && g[All] == [Core, BackgroundServices]
      && Closed(g)
  {
  }

  /** The API server, core, background services, all is a valid startup order,
      so the map is acyclic; the API server needs nothing, nothing needs "all",
      and "all" depends, directly or not, on every other module. */
  lemma DependencyMapStartup(apiServer: string)
    requires IsApiServerName(apiServer)
    ensures var g := DependencyMap(apiServer);
      IsStartupOrder(g, [apiServer, Core, BackgroundServices, All])
      && Acyclic(g)
      && g[apiServer] == []
      && (forall m :: m in g ==> All !in g[m])
      && IsChain(g, [All, Core, apiServer]) && IsChain(g, [All, BackgroundServices])
  {
    var g := DependencyMap(apiServer);
    var order := [apiServer, Core, BackgroundServices, All];
    assert IsStartupOrder(g, order);
    StartupOrderAcyclic(g, order);
  }
}
