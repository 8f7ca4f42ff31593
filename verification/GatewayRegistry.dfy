/**
  The handler registry (packages/nest-webtransport/src/routing/gateway-registry.ts:29-118): an index by a
  composite key that has to agree with filtering the list of registrations.

  The URL parser is a parameter: what it gives back for a path, or the path itself when it refuses it.
*/
module Routes {
  import opened Wrappers

  const NUL := '\0'

  datatype Kind = SessionKind | DatagramKind | BidirectionalKind | UnidirectionalKind

  function KindName(kind: Kind): string {
    match kind
    case SessionKind => "session"
    case DatagramKind => "datagram"
    case BidirectionalKind => "bidirectional-stream"
    case UnidirectionalKind => "unidirectional-stream"
  }

  /** A compiled handler; `callback` stands for everything the registry only carries. */
  datatype Handler = Handler(gatewayPath: string, kind: Kind, route: Option<string>, callback: nat)

  /** An absent route and an empty one are the same. */
  function RouteName(route: Option<string>): string {
    if route.Some? then route.value else ""
  }

  type Parser = string -> string

  /** A URL parser gives a path's pathname or refuses the path. */
  type UrlParser = string -> Option<string>

  function Pathname(url: UrlParser): Parser {
    path => if url(path).Some? then url(path).value else path
  }

  function TrimSlashes(s: string): string {
    if s != "" && s[|s| - 1] == '/' then TrimSlashes(s[..|s| - 1]) else s
  }

  /** `normalizeGatewayPath`. */
  function Normalize(parse: Parser, path: string): string {
    var parsed := parse(path);
    var rooted := if parsed != "" && parsed[0] == '/' then parsed else "/" + parsed;
    if |rooted| > 1 then TrimSlashes(rooted) else rooted
  }

  function Join(normalized: string, kind: Kind, name: string): string {
    normalized + [NUL] + (KindName(kind) + [NUL] + name)
  }

  function RegistryKey(parse: Parser, path: string, kind: Kind, route: Option<string>): string {
    Join(Normalize(parse, path), kind, RouteName(route))
  }

  function KeyOf(parse: Parser, h: Handler): string {
    RegistryKey(parse, h.gatewayPath, h.kind, h.route)
  }

  function KindKey(parse: Parser, path: string, kind: Kind): string {
    Normalize(parse, path) + [NUL] + KindName(kind)
  }

  // ----- the list -----

  /** The registrations under a key, in order. */
  function Under(parse: Parser, hs: seq<Handler>, key: string): seq<Handler> {
    if hs == [] then []
    else
      var h := hs[|hs| - 1];
      var rest := Under(parse, hs[..|hs| - 1], key);
      if KeyOf(parse, h) == key then rest + [h] else rest
  }

  /** The registrations for a normalized path, kind and route name, in order. */
  function Select(parse: Parser, hs: seq<Handler>, normalized: string, kind: Kind, name: string): seq<Handler> {
    if hs == [] then []
    else
      var h := hs[|hs| - 1];
      var rest := Select(parse, hs[..|hs| - 1], normalized, kind, name);
      if Normalize(parse, h.gatewayPath) == normalized && h.kind == kind && RouteName(h.route) == name
      then rest + [h] else rest
  }

  /** The handlers of the named route, if one is named, and then the unnamed ones, once. */
  function Answer(parse: Parser, hs: seq<Handler>, normalized: string, kind: Kind, name: string): seq<Handler> {
    (if name == "" then [] else Select(parse, hs, normalized, kind, name)) + Select(parse, hs, normalized, kind, "")
  }

  // ----- the key -----

  predicate Clean(s: string) {
    NUL !in s
  }

  ghost predicate AllClean(parse: Parser, hs: seq<Handler>) {
    forall i :: 0 <= i < |hs| ==> Clean(Normalize(parse, hs[i].gatewayPath))
  }

  lemma KindNames(a: Kind, b: Kind)
    ensures Clean(KindName(a))
    ensures KindName(a) == KindName(b) ==> a == b
  {
    assert KindName(a)[0] in {'s', 'd', 'b', 'u'};
  }

  lemma FirstNul(a: string, b: string)
    requires Clean(a)
    ensures var s := a + [NUL] + b;
            s[|a|] == NUL && (forall i :: 0 <= i < |a| ==> s[i] != NUL) && a == s[..|a|] && b == s[|a| + 1..]
  {
  }

  lemma LastNul(a: string, b: string)
    requires Clean(b)
    ensures var s := a + [NUL] + b;
            s[|a|] == NUL && (forall i :: |a| < i < |s| ==> s[i] != NUL) && a == s[..|a|] && b == s[|a| + 1..]
  {
  }

  lemma SplitAtFirst(a: string, b: string, c: string, d: string)
    requires Clean(a) && Clean(c) && a + [NUL] + b == c + [NUL] + d
    ensures a == c && b == d
  {
    FirstNul(a, b);
    FirstNul(c, d);
    assert |a| == |c|;
  }

  /** The composite key determines its three parts when neither path contains U+0000; the route may. */
  lemma KeyIsInjective(p: string, k: Kind, r: string, p': string, k': Kind, r': string)
    requires Clean(p) && Clean(p')
    ensures Join(p, k, r) == Join(p', k', r') <==> p == p' && k == k' && r == r'
  {
    if Join(p, k, r) == Join(p', k', r') {
      SplitAtFirst(p, KindName(k) + [NUL] + r, p', KindName(k') + [NUL] + r');
      KindNames(k, k');
      KindNames(k', k);
      SplitAtFirst(KindName(k), r, KindName(k'), r');
    }
  }

  /** With U+0000 in a path two different registrations share a key. */
  lemma KeysCollide(p: string, k: Kind, r: string, k': Kind, r': string)
    ensures var longer := p + [NUL] + KindName(k) + [NUL] + r;
            longer != p && Join(longer, k', r') == Join(p, k, r + [NUL] + KindName(k') + [NUL] + r')
  {
    hide KindName;
    Regroup(p, KindName(k), r, KindName(k') + [NUL] + r');
    assert r + [NUL] + KindName(k') + [NUL] + r' == r + [NUL] + (KindName(k') + [NUL] + r');
  }

  lemma Regroup(p: string, n: string, r: string, tail: string)
    ensures var longer := p + [NUL] + n + [NUL] + r;
            longer != p && longer + [NUL] + tail == p + [NUL] + (n + [NUL] + (r + [NUL] + tail))
  {
    assert |p + [NUL] + n + [NUL] + r| > |p|;
  }

  lemma {:induction false} UnderIsSelect(parse: Parser, hs: seq<Handler>, normalized: string, kind: Kind, name: string)
    requires Clean(normalized) && AllClean(parse, hs)
    ensures Under(parse, hs, Join(normalized, kind, name)) == Select(parse, hs, normalized, kind, name)
  {
    hide Join, Normalize;
    if hs != [] {
      var h := hs[|hs| - 1];
      UnderIsSelect(parse, hs[..|hs| - 1], normalized, kind, name);
      KeyIsInjective(Normalize(parse, h.gatewayPath), h.kind, RouteName(h.route), normalized, kind, name);
    }
  }

  /** For any list, whatever its paths contain: the list under a key is the registrations for the path, kind
      and route if and only if no registration for anything else has that key. */
  lemma {:induction false} UnderIsSelectIff(parse: Parser, hs: seq<Handler>, normalized: string, kind: Kind, name: string)
    ensures Under(parse, hs, Join(normalized, kind, name)) == Select(parse, hs, normalized, kind, name) <==>
            forall h :: h in hs && KeyOf(parse, h) == Join(normalized, kind, name) ==>
              Normalize(parse, h.gatewayPath) == normalized && h.kind == kind && RouteName(h.route) == name
    ensures |Select(parse, hs, normalized, kind, name)| <= |Under(parse, hs, Join(normalized, kind, name))|
  {
    hide Join, Normalize;
    if hs != [] {
      var n := |hs| - 1;
      var key, h := Join(normalized, kind, name), hs[n];
      var under, select := Under(parse, hs[..n], key), Select(parse, hs[..n], normalized, kind, name);
      assert hs == hs[..n] + [h];
      UnderIsSelectIff(parse, hs[..n], normalized, kind, name);
      if KeyOf(parse, h) == key {
        if Normalize(parse, h.gatewayPath) == normalized && h.kind == kind && RouteName(h.route) == name {
          assert (under + [h])[..|under|] == under && (select + [h])[..|select|] == select;
        } else {
          assert h in hs && |under + [h]| > |select|;
        }
      }
    }
  }

  /** The two-part key: kind names contain no U+0000, so it determines its parts whatever the path. */
  lemma KindKeyIsInjective(p: string, k: Kind, p': string, k': Kind)
    ensures p + [NUL] + KindName(k) == p' + [NUL] + KindName(k') <==> p == p' && k == k'
  {
    KindNames(k, k');
    KindNames(k', k);
    if p + [NUL] + KindName(k) == p' + [NUL] + KindName(k') {
      LastNul(p, KindName(k));
      LastNul(p', KindName(k'));
      assert |p| == |p'|;
    }
  }

  // ----- normalizing twice -----

  /** `find` looks under the path normalized twice. For every list of registrations and every route that
      agrees with the list filtered by the path normalized once, exactly if normalizing again changes
      nothing. */
  lemma FindAgreesIff(parse: Parser, path: string, kind: Kind)
    requires Clean(Normalize(parse, path))
    ensures (forall hs: seq<Handler>, name: string :: AllClean(parse, hs) ==>
               Answer(parse, hs, Normalize(parse, Normalize(parse, path)), kind, name)
               == Answer(parse, hs, Normalize(parse, path), kind, name))
            <==> Normalize(parse, Normalize(parse, path)) == Normalize(parse, path)
  {
    hide Normalize;
    var once := Normalize(parse, path);
    var twice := Normalize(parse, once);
    if twice != once {
      var hs := [Handler(path, kind, None, 0)];
      assert AllClean(parse, hs);
      assert hs[..|hs| - 1] == [];
      assert Select(parse, hs, once, kind, "") == hs;
      assert Select(parse, hs, twice, kind, "") == [];
      assert Answer(parse, hs, twice, kind, "") != Answer(parse, hs, once, kind, "");
    }
  }

  predicate OnlySlashes(s: string) {
    forall i :: 0 <= i < |s| ==> s[i] == '/'
  }

  lemma {:induction false} TrimsToNothing(s: string)
    ensures TrimSlashes(s) == "" <==> OnlySlashes(s)
    ensures TrimSlashes(s) != "" ==> TrimSlashes(s)[0] == s[0] && TrimSlashes(s)[|TrimSlashes(s)| - 1] != '/'
    ensures |TrimSlashes(s)| <= |s|
  {
    if s != "" && s[|s| - 1] == '/' {
      var t := s[..|s| - 1];
      TrimsToNothing(t);
      if OnlySlashes(t) {
        assert forall i :: 0 <= i < |s| ==> s[i] == if i < |t| then t[i] else '/';
      } else {
        var i :| 0 <= i < |t| && t[i] != '/';
        assert s[i] != '/';
      }
    }
  }

  /** It takes off slashes at the end and nothing else. */
  lemma {:induction false} TrimsOnlySlashes(s: string)
    ensures var t := TrimSlashes(s); |t| <= |s| && t == s[..|t|] && OnlySlashes(s[|t|..])
  {
    if s != "" && s[|s| - 1] == '/' {
      var rest := s[..|s| - 1];
      TrimsOnlySlashes(rest);
      var t := TrimSlashes(rest);
      forall i | 0 <= i < |s| - |t|
        ensures s[|t|..][i] == '/'
      {
        if i < |rest| - |t| {
          assert s[|t|..][i] == rest[|t|..][i];
        }
      }
    }
  }

  /** The normal form is what the parser gives for the path, rooted, without slashes at its end. */
  lemma NormalizeKeepsThePath(parse: Parser, path: string)
    ensures var n := Normalize(parse, path); var parsed := parse(path);
            var rooted := if parsed != "" && parsed[0] == '/' then parsed else "/" + parsed;
            |n| <= |rooted| && n == rooted[..|n|] && OnlySlashes(rooted[|n|..])
  {
    var parsed := parse(path);
    TrimsOnlySlashes(if parsed != "" && parsed[0] == '/' then parsed else "/" + parsed);
  }

  /** A normal form is "/", or begins with a slash and does not end with one, or, exactly when the
      parsed path is two or more slashes and nothing else, is empty. */
  lemma NormalForms(parse: Parser, path: string)
    ensures var n := Normalize(parse, path);
            && (n == "" <==> 2 <= |parse(path)| && OnlySlashes(parse(path)))
            && (n != "" ==> n[0] == '/' && (n == "/" || n[|n| - 1] != '/'))
  {
    var parsed := parse(path);
    var rooted := if parsed != "" && parsed[0] == '/' then parsed else "/" + parsed;
    TrimsToNothing(rooted);
    if parsed == "" {
      assert rooted == "/";
    } else if parsed[0] != '/' {
      assert rooted[1] == parsed[0];
    }
  }

  /** What a URL parser does with a pathname `n` that it has given itself, trimmed of its last slashes: the
      empty path is the root; a path with one leading slash is itself; and of a path with two, it takes
      the first part for a host and leaves a shorter path, or refuses the host. */
  predicate Rereads(url: UrlParser, n: string) {
    && url("") == Some("/")
    && (n != "" && !NamesHost(n) ==> url(n) == Some(n))
    && (NamesHost(n) && url(n).Some? ==> url(n).value != "" && url(n).value[0] == '/' && |url(n).value| < |n|)
  }

  predicate NamesHost(n: string) {
    2 <= |n| && n[0] == '/' && n[1] == '/'
  }

  lemma TrimsNothing(s: string)
    requires s == "" || s[|s| - 1] != '/'
    ensures TrimSlashes(s) == s
  {
  }

  /** With such a parser, normalizing again changes nothing exactly if the normal form is not empty and names
      no host that the parser accepts. */
  lemma NormalizesOnceIff(url: UrlParser, path: string)
    requires Rereads(url, Normalize(Pathname(url), path))
    ensures var n := Normalize(Pathname(url), path);
            Normalize(Pathname(url), n) == n <==> n != "" && !(NamesHost(n) && url(n).Some?)
  {
    var parse := Pathname(url);
    var n := Normalize(parse, path);
    NormalForms(parse, path);
    if n == "" {
      assert Normalize(parse, n)[0] == '/';
    } else if NamesHost(n) && url(n).Some? {
      TrimsToNothing(url(n).value);
    } else if |n| > 1 {
      TrimsNothing(n);
    }
  }

  /** `find` answers with what is registered for a path - for every list of registrations and every route -
      exactly if the path's normal form is not empty and names no host that the parser accepts. */
  lemma FindAgreesExactly(url: UrlParser, path: string, kind: Kind)
    requires Rereads(url, Normalize(Pathname(url), path)) && Clean(Normalize(Pathname(url), path))
    ensures var parse, n := Pathname(url), Normalize(Pathname(url), path);
            (forall hs: seq<Handler>, name: string :: AllClean(parse, hs) ==>
               Answer(parse, hs, Normalize(parse, n), kind, name) == Answer(parse, hs, n, kind, name))
            <==> n != "" && !(NamesHost(n) && url(n).Some?)
  {
    hide Normalize, Answer, Rereads;
    NormalizesOnceIff(url, path);
    FindAgreesIff(Pathname(url), path, kind);
  }

  /** Wherever normalizing again leads to another gateway's path: the first gateway's own handler is not
      found under its own path, and the other gateway's handler is found in its place. */
  lemma HandlersAreLost(parse: Parser, path: string, other: string, kind: Kind, own: nat, theirs: nat)
    requires var once, twice := Normalize(parse, path), Normalize(parse, Normalize(parse, path));
             once != twice && Clean(once) && Clean(twice) && Normalize(parse, other) == twice
    ensures var hs := [Handler(path, kind, None, own), Handler(other, kind, None, theirs)];
            var once := Normalize(parse, path);
            && AllClean(parse, hs)
            && Answer(parse, hs, once, kind, "") == [hs[0]]
            && Answer(parse, hs, Normalize(parse, once), kind, "") == [hs[1]]
  {
    hide Normalize;
    var hs := [Handler(path, kind, None, own), Handler(other, kind, None, theirs)];
    var once := Normalize(parse, path);
    var twice := Normalize(parse, once);
    assert hs[..1] == [hs[0]] && hs[..1][..0] == [];
    assert Select(parse, hs[..1], once, kind, "") == [hs[0]] && Select(parse, hs[..1], twice, kind, "") == [];
    assert Select(parse, hs, once, kind, "") == [hs[0]] && Select(parse, hs, twice, kind, "") == [] + [hs[1]];
  }

  /** A gateway whose path parses to two or more slashes loses its handlers to the root gateway: it is
      registered under the empty path, which normalizes to the root. */
  lemma SlashesAreLost(parse: Parser, path: string, kind: Kind, own: nat, root: nat)
    requires parse("") == "/" && parse("/") == "/"
    requires 2 <= |parse(path)| && OnlySlashes(parse(path))
    ensures var hs := [Handler(path, kind, None, own), Handler("/", kind, None, root)];
            var once := Normalize(parse, path);
            && AllClean(parse, hs)
            && Answer(parse, hs, once, kind, "") == [hs[0]]
            && Answer(parse, hs, Normalize(parse, once), kind, "") == [hs[1]]
  {
    NormalForms(parse, path);
    assert Normalize(parse, "/") == "/" && Normalize(parse, "") == "/" && Normalize(parse, path) == "";
    HandlersAreLost(parse, path, "/", kind, own, root);
  }

  /** So does a gateway whose path parses to two slashes and a name: the name is taken for a host, which
      leaves the root. */
  lemma HostsAreLost(parse: Parser, path: string, name: string, kind: Kind, own: nat, root: nat)
    requires parse("/") == "/" && parse("//" + name) == "/" && parse(path) == "//" + name
    requires name != "" && '/' !in name && Clean(name)
    ensures var hs := [Handler(path, kind, None, own), Handler("/", kind, None, root)];
            var once := Normalize(parse, path);
            && AllClean(parse, hs)
            && Answer(parse, hs, once, kind, "") == [hs[0]]
            && Answer(parse, hs, Normalize(parse, once), kind, "") == [hs[1]]
  {
    assert name[|name| - 1] in name;
    TrimsNothing("//" + name);
    assert Normalize(parse, "/") == "/" && Normalize(parse, path) == "//" + name && Normalize(parse, "//" + name) == "/";
    HandlersAreLost(parse, path, "/", kind, own, root);
  }
}

module GatewayRegistries {
  import opened Wrappers
  import opened Sums
  import R = Routes

  function Length(hs: seq<R.Handler>): nat {
    |hs|
  }

  ghost predicate Indexed(parse: R.Parser, handlers: map<string, seq<R.Handler>>, hs: seq<R.Handler>) {
    && (forall key :: key in handlers <==> R.Under(parse, hs, key) != [])
    && (forall key :: key in handlers ==> handlers[key] == R.Under(parse, hs, key))
  }

  ghost predicate PathsOk(parse: R.Parser, paths: set<string>, hs: seq<R.Handler>) {
    forall p :: p in paths <==> exists h :: h in hs && R.Normalize(parse, h.gatewayPath) == p
  }

  ghost predicate KindsOk(parse: R.Parser, kinds: set<string>, hs: seq<R.Handler>) {
    forall key :: key in kinds <==> exists h :: h in hs && R.KindKey(parse, h.gatewayPath, h.kind) == key
  }

  lemma IndexedMore(parse: R.Parser, handlers: map<string, seq<R.Handler>>, hs: seq<R.Handler>, h: R.Handler)
    requires Indexed(parse, handlers, hs)
    ensures var key := R.KeyOf(parse, h);
            Indexed(parse, handlers[key := (if key in handlers then handlers[key] else []) + [h]], hs + [h])
  {
    hide R.KeyOf;
    assert (hs + [h])[..|hs|] == hs;
  }

  lemma PathsMore(parse: R.Parser, paths: set<string>, hs: seq<R.Handler>, h: R.Handler)
    requires PathsOk(parse, paths, hs)
    ensures PathsOk(parse, paths + {R.Normalize(parse, h.gatewayPath)}, hs + [h])
  {
    hide R.Normalize;
    assert forall x :: x in hs + [h] <==> x in hs || x == h;
  }

  lemma KindsMore(parse: R.Parser, kinds: set<string>, hs: seq<R.Handler>, h: R.Handler)
    requires KindsOk(parse, kinds, hs)
    ensures KindsOk(parse, kinds + {R.KindKey(parse, h.gatewayPath, h.kind)}, hs + [h])
  {
    hide R.KindKey;
    assert forall x :: x in hs + [h] <==> x in hs || x == h;
  }

  class GatewayRegistry {
    const parse: R.Parser
    var handlers: map<string, seq<R.Handler>>
    var paths: set<string>
    var handlerKinds: set<string>
    /** Everything registered since the last `clear`, in order. */
    ghost var registered: seq<R.Handler>

    /** The index and the list say the same. */
    ghost predicate Valid()
      reads this
    {
      && Indexed(parse, handlers, registered)
      && PathsOk(parse, paths, registered)
      && KindsOk(parse, handlerKinds, registered)
      && Sum(handlers, Length) == |registered|
    }

    constructor (parse: R.Parser)
      ensures Valid() && registered == [] && this.parse == parse
    {
      this.parse := parse;
      handlers, paths, handlerKinds, registered := map[], {}, {}, [];
    }

    method Clear()
      modifies this
      ensures Valid() && registered == []
    {
      handlers, paths, handlerKinds, registered := map[], {}, {}, [];
    }

    method Register(h: R.Handler)
      requires Valid()
      modifies this
      ensures Valid() && registered == old(registered) + [h]
    {
      hide R.Normalize, R.KeyOf, R.KindKey, Indexed, PathsOk, KindsOk;
      PathsMore(parse, paths, registered, h);
      KindsMore(parse, handlerKinds, registered, h);
      IndexedMore(parse, handlers, registered, h);
      paths := paths + {R.Normalize(parse, h.gatewayPath)};
      handlerKinds := handlerKinds + {R.KindKey(parse, h.gatewayPath, h.kind)};
      var key := R.KeyOf(parse, h);
      var list := (if key in handlers then handlers[key] else []) + [h];
      SumPut(handlers, Length, key, list);
      handlers := handlers[key := list];
      registered := registered + [h];
    }

    method Lookup(normalized: string, kind: R.Kind, route: Option<string>) returns (found: seq<R.Handler>)
      requires Valid()
      ensures found == R.Under(parse, registered, R.RegistryKey(parse, normalized, kind, route))
    {
      var key := R.RegistryKey(parse, normalized, kind, route);
      found := if key in handlers then handlers[key] else [];
    }

    /** The handlers of the named route in registration order, and then the unnamed ones, exactly once;
        for the path normalized twice. With U+0000 in a path these are whatever is registered under the
        two keys: see `Routes.UnderIsSelectIff`. */
    method Find(path: string, kind: R.Kind, route: Option<string>) returns (found: seq<R.Handler>)
      requires Valid()
      ensures found ==
              (if R.RouteName(route) == "" then []
               else R.Under(parse, registered, R.RegistryKey(parse, R.Normalize(parse, path), kind, route)))
              + R.Under(parse, registered, R.RegistryKey(parse, R.Normalize(parse, path), kind, None))
      ensures R.AllClean(parse, registered) && R.Clean(R.Normalize(parse, R.Normalize(parse, path))) ==>
              found == R.Answer(parse, registered, R.Normalize(parse, R.Normalize(parse, path)), kind, R.RouteName(route))
    {
      hide R.Normalize, R.Join, Valid;
      var normalized := R.Normalize(parse, path);
      ghost var again := R.Normalize(parse, normalized);
      var exact := [];
      if route.Some? && route.value != "" {
        exact := Lookup(normalized, kind, route);
      }
      var fallback := Lookup(normalized, kind, None);
      if R.AllClean(parse, registered) && R.Clean(again) {
        R.UnderIsSelect(parse, registered, again, kind, R.RouteName(route));
        R.UnderIsSelect(parse, registered, again, kind, "");
      }
      found := exact + fallback;
    }

    method Size() returns (count: nat)
      requires Valid()
      ensures count == |registered|
    {
      count := 0;
      var rest := handlers;
      while rest != map[]
        invariant count + Sum(rest, Length) == |registered|
        decreases rest.Keys
      {
        var key :| key in rest;
        SumTake(rest, Length, key);
        count := count + |rest[key]|;
        rest := rest - {key};
      }
    }

    method HasPath(path: string) returns (has: bool)
      requires Valid()
      ensures has <==> exists h :: h in registered && R.Normalize(parse, h.gatewayPath) == R.Normalize(parse, path)
    {
      has := R.Normalize(parse, path) in paths;
    }

    method HasHandlers(path: string, kind: R.Kind) returns (has: bool)
      requires Valid()
      ensures has <==>
              exists h :: h in registered && R.Normalize(parse, h.gatewayPath) == R.Normalize(parse, path) && h.kind == kind
    {
      hide R.Normalize;
      has := R.KindKey(parse, path, kind) in handlerKinds;
      forall h: R.Handler
        ensures R.KindKey(parse, h.gatewayPath, h.kind) == R.KindKey(parse, path, kind)
                <==> R.Normalize(parse, h.gatewayPath) == R.Normalize(parse, path) && h.kind == kind
      {
        R.KindKeyIsInjective(R.Normalize(parse, h.gatewayPath), h.kind, R.Normalize(parse, path), kind);
      }
    }
  }
}
