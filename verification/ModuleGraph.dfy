/**
  The search for the module that provides an enhancer visible from a handler's host module
  (packages/nest-webtransport/src/execution/execution-pipeline.ts:338-362).

  `ModuleGraphs` is the search as a function and what it answers on any finite graph, cycles included;
  `ModuleSearches` is the recursive closure with its one shared visited set.
*/
module ModuleGraphs {
  import opened Wrappers

  type ModuleId = nat
  /** An injection token. A module's own class is a token too, and is what a re-export names. */
  type Token = nat

  datatype Module = Module(
    metatype: Token,
    providers: set<Token>,
    injectables: set<Token>,
    exports: set<Token>,
    imports: seq<ModuleId>)

  type Graph = map<ModuleId, Module>

  ghost predicate Closed(g: Graph) {
    forall m, i :: m in g && i in g[m].imports ==> i in g
  }

  predicate Owns(m: Module, token: Token) {
    token in m.providers || token in m.injectables
  }

  /** What an importer of the module can see of it directly. */
  predicate Exposes(m: Module, token: Token) {
    token in m.exports && token in m.providers
  }

  /** Those of the imports that the importer exports again. */
  function Passed(g: Graph, exports: set<Token>, imports: seq<ModuleId>): (r: seq<ModuleId>)
    requires forall i :: i in imports ==> i in g
    ensures forall i :: i in r <==> i in imports && g[i].metatype in exports
  {
    if imports == [] then []
    else
      assert imports == [imports[0]] + imports[1..];
      var rest := Passed(g, exports, imports[1..]);
      if g[imports[0]].metatype in exports then [imports[0]] + rest else rest
  }

  function ReExported(g: Graph, m: ModuleId): seq<ModuleId>
    requires Closed(g) && m in g
  {
    Passed(g, g[m].exports, g[m].imports)
  }

  // ----- the search -----

  type Found = (Option<ModuleId>, set<ModuleId>)

  function Visit(g: Graph, token: Token, m: ModuleId, visited: set<ModuleId>): (r: Found)
    requires Closed(g) && m in g && visited <= g.Keys
    ensures visited <= r.1 <= g.Keys && m in r.1
    decreases g.Keys - visited, 0
  {
    if m in visited then (None, visited)
    else if Exposes(g[m], token) then (Some(m), visited + {m})
    else
      assert m in g.Keys - visited;
      VisitAll(g, token, ReExported(g, m), visited + {m})
  }

  function VisitAll(g: Graph, token: Token, ms: seq<ModuleId>, visited: set<ModuleId>): (r: Found)
    requires Closed(g) && (forall m :: m in ms ==> m in g) && visited <= g.Keys
    ensures visited <= r.1 <= g.Keys
    decreases g.Keys - visited, 1 + |ms|
  {
    if ms == [] then (None, visited)
    else
      var (found, seen) := Visit(g, token, ms[0], visited);
      assert g.Keys - seen == g.Keys - visited || g.Keys - seen < g.Keys - visited;
      if found.Some? then (found, seen) else VisitAll(g, token, ms[1..], seen)
  }

  function FindVisible(g: Graph, token: Token, host: ModuleId): Option<ModuleId>
    requires Closed(g) && host in g
  {
    if Owns(g[host], token) then Some(host) else VisitAll(g, token, g[host].imports, {}).0
  }

  // ----- what it answers -----

  /** Every module on the chain exports the next one again. */
  ghost predicate Chain(g: Graph, p: seq<ModuleId>)
    requires Closed(g)
  {
    && p != []
    && (forall i :: 0 <= i < |p| ==> p[i] in g)
    && (forall i :: 0 <= i < |p| - 1 ==> p[i + 1] in g[p[i]].imports && g[p[i + 1]].metatype in g[p[i]].exports)
  }

  ghost predicate Reaches(g: Graph, token: Token, from: seq<ModuleId>, to: ModuleId)
    requires Closed(g)
  {
    exists p :: Chain(g, p) && p[0] in from && p[|p| - 1] == to && token in g[to].exports && token in g[to].providers
  }

  lemma {:induction false} VisitFinds(g: Graph, token: Token, m: ModuleId, visited: set<ModuleId>, to: ModuleId)
    requires Closed(g) && m in g && visited <= g.Keys
    requires Visit(g, token, m, visited).0 == Some(to)
    ensures Reaches(g, token, [m], to)
    decreases g.Keys - visited, 0
  {
    if Exposes(g[m], token) {
      assert Chain(g, [m]) && [m][0] in [m];
    } else {
      assert m in g.Keys - visited;
      VisitAllFinds(g, token, ReExported(g, m), visited + {m}, to);
      var p :| Chain(g, p) && p[0] in ReExported(g, m) && p[|p| - 1] == to;
      var q := [m] + p;
      assert Chain(g, q) && q[0] in [m] && q[|q| - 1] == to;
    }
  }

  lemma {:induction false} VisitAllFinds(g: Graph, token: Token, ms: seq<ModuleId>, visited: set<ModuleId>, to: ModuleId)
    requires Closed(g) && (forall m :: m in ms ==> m in g) && visited <= g.Keys
    requires VisitAll(g, token, ms, visited).0 == Some(to)
    ensures Reaches(g, token, ms, to)
    decreases g.Keys - visited, 1 + |ms|
  {
    var (found, seen) := Visit(g, token, ms[0], visited);
    if found.Some? {
      VisitFinds(g, token, ms[0], visited, to);
      ReachesFromPart(g, token, [ms[0]], ms, to);
    } else {
      assert g.Keys - seen == g.Keys - visited || g.Keys - seen < g.Keys - visited;
      VisitAllFinds(g, token, ms[1..], seen, to);
      ReachesFromPart(g, token, ms[1..], ms, to);
    }
  }

  lemma ReachesFromPart(g: Graph, token: Token, part: seq<ModuleId>, all: seq<ModuleId>, to: ModuleId)
    requires Closed(g) && Reaches(g, token, part, to) && forall m :: m in part ==> m in all
    ensures Reaches(g, token, all, to)
  {
    var p :| Chain(g, p) && p[0] in part && p[|p| - 1] == to && Exposes(g[to], token);
    assert p[0] in all;
  }

  /** The modules are dead ends: none exposes the token, and all they export again is visited too. */
  ghost predicate DeadEnds(g: Graph, token: Token, ms: set<ModuleId>, visited: set<ModuleId>)
    requires Closed(g)
  {
    forall m :: m in ms && m in g ==>
      !Exposes(g[m], token) && forall i :: i in ReExported(g, m) ==> i in visited
  }

  lemma {:induction false} VisitMisses(g: Graph, token: Token, m: ModuleId, visited: set<ModuleId>)
    requires Closed(g) && m in g && visited <= g.Keys
    requires Visit(g, token, m, visited).0.None?
    ensures var seen := Visit(g, token, m, visited).1; DeadEnds(g, token, seen - visited, seen)
    decreases g.Keys - visited, 0
  {
    if m !in visited {
      assert m in g.Keys - visited;
      VisitAllMisses(g, token, ReExported(g, m), visited + {m});
    }
  }

  lemma {:induction false} VisitAllMisses(g: Graph, token: Token, ms: seq<ModuleId>, visited: set<ModuleId>)
    requires Closed(g) && (forall m :: m in ms ==> m in g) && visited <= g.Keys
    requires VisitAll(g, token, ms, visited).0.None?
    ensures var seen := VisitAll(g, token, ms, visited).1;
            DeadEnds(g, token, seen - visited, seen) && forall m :: m in ms ==> m in seen
    decreases g.Keys - visited, 1 + |ms|
  {
    if ms != [] {
      var seen := Visit(g, token, ms[0], visited).1;
      assert g.Keys - seen == g.Keys - visited || g.Keys - seen < g.Keys - visited;
      VisitMisses(g, token, ms[0], visited);
      VisitAllMisses(g, token, ms[1..], seen);
      assert ms == [ms[0]] + ms[1..];
    }
  }

  /** No chain leaves a visited set of dead ends. */
  lemma {:induction false} ChainStaysInside(g: Graph, token: Token, visited: set<ModuleId>, p: seq<ModuleId>, i: nat)
    requires Closed(g) && DeadEnds(g, token, visited, visited)
    requires Chain(g, p) && p[0] in visited && i < |p|
    ensures p[i] in visited && !Exposes(g[p[i]], token)
  {
    if i > 0 {
      ChainStaysInside(g, token, visited, p, i - 1);
      assert p[i - 1 + 1] in ReExported(g, p[i - 1]);
    }
  }

  /** On any finite graph, cyclic or not, the search answers with a module exactly when the host owns
      the token itself, or some chain of imports, each link after the first exported again by its
      importer, ends in a module that exports and provides it; and the module it answers with is such
      an end. Sharing one visited set over all branches loses no answer. */
  lemma FindsWhatIsVisible(g: Graph, token: Token, host: ModuleId)
    requires Closed(g) && host in g
    ensures FindVisible(g, token, host).Some? <==>
            || token in g[host].providers || token in g[host].injectables
            || exists to :: Reaches(g, token, g[host].imports, to)
    ensures var found := FindVisible(g, token, host);
            found.Some? ==>
              (if Owns(g[host], token) then found.value == host
               else Reaches(g, token, g[host].imports, found.value))
  {
    if !Owns(g[host], token) {
      var imports := g[host].imports;
      var (found, seen) := VisitAll(g, token, imports, {});
      if found.Some? {
        VisitAllFinds(g, token, imports, {}, found.value);
      } else {
        VisitAllMisses(g, token, imports, {});
        assert seen - {} == seen;
        forall to ensures !Reaches(g, token, imports, to) {
          if Reaches(g, token, imports, to) {
            var p :| Chain(g, p) && p[0] in imports && p[|p| - 1] == to && Exposes(g[to], token);
            ChainStaysInside(g, token, seen, p, |p| - 1);
          }
        }
      }
    }
  }
}

/**
  Which provider is answered with, when several qualify. The reference search shares nothing between its
  branches: it only avoids going in circles, so it tries chains one by one, in the order of the imports.
*/
module ModuleOrder {
  import opened Wrappers
  import opened ModuleGraphs

  function Try(g: Graph, token: Token, m: ModuleId, path: set<ModuleId>): Option<ModuleId>
    requires Closed(g) && m in g && path <= g.Keys
    decreases g.Keys - path, 0
  {
    if m in path then None
    else if Exposes(g[m], token) then Some(m)
    else
      assert m in g.Keys - path;
      TryAll(g, token, ReExported(g, m), path + {m})
  }

  function TryAll(g: Graph, token: Token, ms: seq<ModuleId>, path: set<ModuleId>): Option<ModuleId>
    requires Closed(g) && (forall m :: m in ms ==> m in g) && path <= g.Keys
    decreases g.Keys - path, 1 + |ms|
  {
    if ms == [] then None
    else
      var first := Try(g, token, ms[0], path);
      if first.Some? then first else TryAll(g, token, ms[1..], path)
  }

  /** What has been visited off the path is a dead end: it exposes nothing, and leads only to what has been
      visited. */
  ghost predicate OffPathIsDead(g: Graph, token: Token, visited: set<ModuleId>, path: set<ModuleId>)
    requires Closed(g)
  {
    path <= visited <= g.Keys && DeadEnds(g, token, visited - path, visited)
  }

  /** From a dead end no simple chain leads anywhere: every way on is dead too, or back on the path. */
  lemma {:induction false} DeadEndsLeadNowhere(g: Graph, token: Token, visited: set<ModuleId>, path: set<ModuleId>,
                                               m: ModuleId, longer: set<ModuleId>)
    requires Closed(g) && OffPathIsDead(g, token, visited, path) && m in visited
    requires path <= longer <= g.Keys
    ensures Try(g, token, m, longer).None?
    decreases g.Keys - longer, 0
  {
    if m !in longer {
      assert m in g.Keys - longer;
      NoneLeads(g, token, visited, path, ReExported(g, m), longer + {m});
    }
  }

  lemma {:induction false} NoneLeads(g: Graph, token: Token, visited: set<ModuleId>, path: set<ModuleId>,
                                     ms: seq<ModuleId>, longer: set<ModuleId>)
    requires Closed(g) && OffPathIsDead(g, token, visited, path) && forall m :: m in ms ==> m in visited
    requires path <= longer <= g.Keys
    ensures TryAll(g, token, ms, longer).None?
    decreases g.Keys - longer, 1 + |ms|
  {
    if ms != [] {
      DeadEndsLeadNowhere(g, token, visited, path, ms[0], longer);
      NoneLeads(g, token, visited, path, ms[1..], longer);
    }
  }

  lemma {:induction false} VisitTries(g: Graph, token: Token, m: ModuleId, visited: set<ModuleId>, path: set<ModuleId>)
    requires Closed(g) && m in g && OffPathIsDead(g, token, visited, path)
    ensures Visit(g, token, m, visited).0 == Try(g, token, m, path)
    ensures Visit(g, token, m, visited).0.None? ==> OffPathIsDead(g, token, Visit(g, token, m, visited).1, path)
    decreases g.Keys - visited, 0
  {
    if m in visited {
      DeadEndsLeadNowhere(g, token, visited, path, m, path);
    } else if !Exposes(g[m], token) {
      assert m in g.Keys - visited && (visited + {m}) - (path + {m}) == visited - path;
      VisitAllTries(g, token, ReExported(g, m), visited + {m}, path + {m});
      var (found, seen) := VisitAll(g, token, ReExported(g, m), visited + {m});
      if found.None? {
        VisitAllMisses(g, token, ReExported(g, m), visited + {m});
        assert seen - path == (seen - (path + {m})) + {m};
      }
    }
  }

  lemma {:induction false} VisitAllTries(g: Graph, token: Token, ms: seq<ModuleId>, visited: set<ModuleId>, path: set<ModuleId>)
    requires Closed(g) && (forall m :: m in ms ==> m in g) && OffPathIsDead(g, token, visited, path)
    ensures VisitAll(g, token, ms, visited).0 == TryAll(g, token, ms, path)
    ensures VisitAll(g, token, ms, visited).0.None? ==> OffPathIsDead(g, token, VisitAll(g, token, ms, visited).1, path)
    decreases g.Keys - visited, 1 + |ms|
  {
    if ms != [] {
      var (found, seen) := Visit(g, token, ms[0], visited);
      VisitTries(g, token, ms[0], visited, path);
      if found.None? {
        assert g.Keys - seen == g.Keys - visited || g.Keys - seen < g.Keys - visited;
        VisitAllTries(g, token, ms[1..], seen, path);
      }
    }
  }

  /** The shared visited set saves work and changes no answer: on every finite graph, cyclic or not, the
      search answers with the very module that trying all simple chains in order finds first. */
  lemma AnswersWithTheFirst(g: Graph, token: Token, host: ModuleId)
    requires Closed(g) && host in g
    ensures FindVisible(g, token, host) ==
            if Owns(g[host], token) then Some(host) else TryAll(g, token, g[host].imports, {})
  {
    if !Owns(g[host], token) {
      VisitAllTries(g, token, g[host].imports, {}, {});
    }
  }

  ghost predicate Leads(g: Graph, token: Token, m: ModuleId)
    requires Closed(g)
  {
    exists to :: Reaches(g, token, [m], to)
  }

  /** Nothing leads anywhere out of a set of dead ends that is closed. */
  lemma DeadDoesNotLead(g: Graph, token: Token, visited: set<ModuleId>, m: ModuleId)
    requires Closed(g) && DeadEnds(g, token, visited, visited) && m in visited
    ensures !Leads(g, token, m)
  {
    if Leads(g, token, m) {
      var to :| Reaches(g, token, [m], to);
      var p :| Chain(g, p) && p[0] in [m] && p[|p| - 1] == to && Exposes(g[to], token);
      ChainStaysInside(g, token, visited, p, |p| - 1);
    }
  }

  lemma {:induction false} FirstThatLeads(g: Graph, token: Token, ms: seq<ModuleId>, visited: set<ModuleId>, i: nat)
    requires Closed(g) && (forall m :: m in ms ==> m in g) && visited <= g.Keys && DeadEnds(g, token, visited, visited)
    requires i < |ms| && Leads(g, token, ms[i]) && forall j :: 0 <= j < i ==> !Leads(g, token, ms[j])
    ensures var found := VisitAll(g, token, ms, visited).0;
            && found.Some? && Reaches(g, token, [ms[i]], found.value)
            && (Exposes(g[ms[i]], token) ==> found.value == ms[i])
    decreases i
  {
    var (found, seen) := Visit(g, token, ms[0], visited);
    if found.Some? {
      VisitFinds(g, token, ms[0], visited, found.value);
      assert Leads(g, token, ms[0]);
    } else {
      VisitMisses(g, token, ms[0], visited);
      assert DeadEnds(g, token, seen, seen);
      DeadDoesNotLead(g, token, seen, ms[0]);
      assert forall j :: 0 <= j < i - 1 ==> ms[1..][j] == ms[j + 1];
      FirstThatLeads(g, token, ms[1..], seen, i - 1);
    }
  }

  /** A host that does not own the token gets its provider through the first of its imports that leads to
      one; and if that import provides it itself, it is the answer. */
  lemma TheFirstImportThatLeadsAnswers(g: Graph, token: Token, host: ModuleId, i: nat)
    requires Closed(g) && host in g && !Owns(g[host], token)
    requires var imports := g[host].imports;
             i < |imports| && Leads(g, token, imports[i]) && forall j :: 0 <= j < i ==> !Leads(g, token, imports[j])
    ensures var found := FindVisible(g, token, host);
            && found.Some? && Reaches(g, token, [g[host].imports[i]], found.value)
            && (Exposes(g[g[host].imports[i]], token) ==> found.value == g[host].imports[i])
  {
    FirstThatLeads(g, token, g[host].imports, {}, i);
  }
}

module ModuleSearches {
  import opened Wrappers
  import M = ModuleGraphs

  class Search {
    const graph: M.Graph
    const token: M.Token
    var visited: set<M.ModuleId>

    constructor (graph: M.Graph, token: M.Token)
      ensures visited == {} && this.graph == graph && this.token == token
    {
      this.graph, this.token, visited := graph, token, {};
    }

    method FindExported(candidate: M.ModuleId) returns (found: Option<M.ModuleId>)
      requires M.Closed(graph) && candidate in graph && visited <= graph.Keys
      modifies this
      ensures (found, visited) == M.Visit(graph, token, candidate, old(visited))
      decreases graph.Keys - visited
    {
      if candidate in visited {
        return None;
      }
      visited := visited + {candidate};
      var m := graph[candidate];
      if token in m.exports && token in m.providers {
        return Some(candidate);
      }
      ghost var all := M.VisitAll(graph, token, M.ReExported(graph, candidate), visited);
      var i := 0;
      while i < |m.imports|
        invariant 0 <= i <= |m.imports|
        invariant old(visited) + {candidate} <= visited <= graph.Keys
        invariant forall k :: k in m.imports[i..] ==> k in graph
        invariant all == M.VisitAll(graph, token, M.Passed(graph, m.exports, m.imports[i..]), visited)
      {
        var imported := m.imports[i];
        assert m.imports[i..][1..] == m.imports[i + 1..];
        assert imported in m.imports[i..];
        i := i + 1;
        if graph[imported].metatype !in m.exports {
          continue;
        }
        assert M.Passed(graph, m.exports, m.imports[i - 1..])[1..] == M.Passed(graph, m.exports, m.imports[i..]);
        found := FindExported(imported);
        if found.Some? {
          return;
        }
      }
      return None;
    }
  }

  method FindVisibleProviderHost(graph: M.Graph, host: M.ModuleId, token: M.Token)
    returns (found: Option<M.ModuleId>)
    requires M.Closed(graph) && host in graph
    ensures found == M.FindVisible(graph, token, host)
    ensures found.Some? <==>
            M.Owns(graph[host], token) || exists to :: M.Reaches(graph, token, graph[host].imports, to)
  {
    M.FindsWhatIsVisible(graph, token, host);
    if token in graph[host].providers || token in graph[host].injectables {
      return Some(host);
    }
    var search := new Search(graph, token);
    var imports := graph[host].imports;
    var i := 0;
    while i < |imports|
      invariant 0 <= i <= |imports|
      invariant search.graph == graph && search.token == token && search.visited <= graph.Keys
      invariant M.VisitAll(graph, token, imports[i..], search.visited) == M.VisitAll(graph, token, imports, {})
    {
      assert imports[i..][1..] == imports[i + 1..];
      found := search.FindExported(imports[i]);
      if found.Some? {
        return;
      }
      i := i + 1;
    }
    return None;
  }
}
