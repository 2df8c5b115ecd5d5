/**
  What a request target means to the two proxies: the tenant, the forwarded target,
  and where the affinity cookie is sent (proxy/handler.go, k8s/proxy/sticky-proxy.js).
 */
module Routing {
  import opened Options
  import opened Text
  import opened Naming

  const PREFIX := "/t/"

  datatype TenantPath = TenantPath(id: string, rest: string)

  /** Length of the leading run of digits. */
  function DigitRun(s: string): (n: nat)
    ensures n <= |s| && AllDigits(s[..n]) && (n < |s| ==> !IsDigit(s[n]))
  {
    if s == "" || !IsDigit(s[0]) then 0
    else
      var n := DigitRun(s[1..]);
      assert s[..n + 1] == [s[0]] + s[1..][..n];
      n + 1
  }

  /** The expression ^/t/(\d+)(/.*)?$ if "." matched every character: greedy, no backtracking needed. */
  function ParsePath(p: string): Option<TenantPath> {
    if !(PREFIX <= p) then None
    else
      var tail := p[|PREFIX|..];
      var n := DigitRun(tail);
      var rest := tail[n..];
      if n > 0 && (rest == "" || rest[0] == '/') then Some(TenantPath(tail[..n], rest)) else None
  }

  /** In Go "." does not match a line feed, and a match covers the whole path. */
  function GoMatch(path: string): Option<TenantPath> {
    if '\n' in path then None else ParsePath(path)
  }

  /** Line terminators, which "." in a JavaScript expression does not match. */
  predicate IsLineEnd(c: char) {
    c == '\n' || c == '\r' || c == '\U{2028}' || c == '\U{2029}'
  }

  predicate OneLine(s: string) {
    forall i | 0 <= i < |s| :: !IsLineEnd(s[i])
  }

  function NodeMatch(target: string): Option<TenantPath> {
    if !OneLine(target) then None else ParsePath(target)
  }

  predicate IsId(id: string) {
    id != "" && AllDigits(id)
  }

  /** What the expression denotes: the text is "/t/", an id, and nothing or a slash and anything. */
  predicate Denotes(p: string, m: TenantPath) {
    p == PREFIX + m.id + m.rest && IsId(m.id) && (m.rest == "" || m.rest[0] == '/')
  }

  lemma ParseIsDenotation(p: string, m: TenantPath)
    ensures ParsePath(p) == Some(m) <==> Denotes(p, m)
  {
    if ParsePath(p) == Some(m) { ParsedDenotes(p, m); }
    if Denotes(p, m) { DenotedParses(p, m); }
  }

  lemma ParsedDenotes(p: string, m: TenantPath)
    requires ParsePath(p) == Some(m)
    ensures Denotes(p, m)
  {
    var tail := p[|PREFIX|..];
    assert p == PREFIX + tail && tail == m.id + m.rest;
  }

  lemma DenotedParses(p: string, m: TenantPath)
    requires Denotes(p, m)
    ensures ParsePath(p) == Some(m)
  {
    var tail := m.id + m.rest;
    assert p == PREFIX + tail && p[|PREFIX|..] == tail;
    RunIsId(m.id, m.rest);
    assert tail[..|m.id|] == m.id && tail[|m.id|..] == m.rest;
  }

  lemma {:induction false} RunIsId(id: string, rest: string)
    requires AllDigits(id) && (rest == "" || !IsDigit(rest[0]))
    ensures DigitRun(id + rest) == |id|
  {
    if id == "" {
      assert id + rest == rest;
    } else {
      assert (id + rest)[1..] == id[1..] + rest;
      RunIsId(id[1..], rest);
    }
  }

  // ----- Where the cookie goes -----

  /** Path-match of section 5.1.4 of RFC 6265. */
  predicate PathMatch(request: string, cookie: string) {
    || request == cookie
    || (cookie < request && ((cookie != "" && cookie[|cookie| - 1] == '/') || request[|cookie|] == '/'))
  }

  function CookiePath(id: string): string {
    PREFIX + id
  }

  /** A client sends tenant t's cookie with exactly the requests that are routed to t: /t/3 never covers /t/30. */
  lemma CookieScopeIsRoutingScope(p: string, m: TenantPath, t: string)
    requires ParsePath(p) == Some(m) && IsId(t)
    ensures PathMatch(p, CookiePath(t)) <==> m.id == t
  {
    ParseIsDenotation(p, m);
    var path := CookiePath(t);
    assert path[|path| - 1] == t[|t| - 1] != '/';
    if PathMatch(p, path) {
      var rest := p[|path|..];
      assert p == path + rest;
      ParseIsDenotation(p, TenantPath(t, rest));
    }
    if m.id == t {
      assert p == path + m.rest;
    }
  }

  /** Only the canonical numeral of a tenant reaches its namespace; /t/007 is not tenant 7. */
  lemma OnlyCanonicalIdReaches(id: string, n: nat)
    requires IsId(id)
    ensures "tenant-" + id == NamespaceName(n) <==> id == Decimal(n)
    ensures (exists t: nat :: "tenant-" + id == NamespaceName(t)) <==> Canonical(id)
  {
    if "tenant-" + id == NamespaceName(n) { SamePrefix("tenant-", id, Decimal(n)); }
    if exists t: nat :: "tenant-" + id == NamespaceName(t) {
      var t: nat :| "tenant-" + id == NamespaceName(t);
      SamePrefix("tenant-", id, Decimal(t));
      DecimalIsCanonical(t);
    }
    if Canonical(id) {
      CanonicalIsDecimal(id);
      assert "tenant-" + id == NamespaceName(Value(id));
    }
  }

  // ----- What is forwarded -----

  datatype Route = NoRoute | Forward(id: string, target: string)

  function OrSlash(rest: string): string {
    if rest == "" then "/" else rest
  }

  function PathOf(u: string): string {
    if '?' in u then u[..FirstIndex(u, '?')] else u
  }

  function QueryOf(u: string): string {
    if '?' in u then u[FirstIndex(u, '?') + 1..] else ""
  }

  // ----- Targets that reach both proxies unchanged -----

  /** Characters that Go's URL printer writes in a path as they are. */
  predicate KeptInPath(c: char) {
    || 'a' <= c <= 'z' || 'A' <= c <= 'Z' || IsDigit(c)
    || c in {'-', '_', '.', '~', '$', '&', '+', ',', '/', ':', ';', '=', '@'}
  }

  predicate Visible(c: char) {
    '!' <= c <= '~'
  }

  /** The segment that starts after position i is "." or "..". */
  predicate DotSegmentAt(p: string, i: nat)
    requires i < |p|
  {
    var rest := p[i + 1..];
    rest == "." || rest == ".." || "./" <= rest || "../" <= rest
  }

  /** ServeMux redirects a path with an empty, "." or ".." segment before the handler sees it. */
  predicate CleanPath(p: string) {
    forall i | 0 <= i < |p| - 1 && p[i] == '/' :: p[i + 1] != '/' && !DotSegmentAt(p, i)
  }

  /**
    Origin form, a clean path in which Go neither decodes nor escapes anything, and a query
    of visible characters. "%" is not kept, so no such path has an escape.
   */
  predicate Plain(u: string) {
    && u != "" && u[0] == '/'
    && (forall i | 0 <= i < |PathOf(u)| :: KeptInPath(PathOf(u)[i])) && CleanPath(PathOf(u))
    && (forall i | 0 <= i < |QueryOf(u)| :: Visible(QueryOf(u)[i]))
  }

  lemma PlainIsOneLine(u: string)
    requires Plain(u)
    ensures OneLine(u) && OneLine(PathOf(u))
    ensures GoMatch(PathOf(u)) == ParsePath(PathOf(u)) && NodeMatch(u) == ParsePath(u)
  {
    if '?' in u { Cut(u); }
    var p, q := PathOf(u), QueryOf(u);
    assert forall c: char :: KeptInPath(c) || Visible(c) || c == '?' ==> !IsLineEnd(c);
    forall i | 0 <= i < |u|
      ensures !IsLineEnd(u[i])
    {
      if '?' in u && i > |p| { assert u[i] == q[i - |p| - 1]; }
    }
  }

  /** handler.go matches the path alone and writes the query back only if it is not empty. */
  function GoRoute(u: string): Route
    requires Plain(u)
  {
    match GoMatch(PathOf(u))
    case None => NoRoute
    case Some(m) => Forward(m.id, OrSlash(m.rest) + if QueryOf(u) == "" then "" else "?" + QueryOf(u))
  }

  /** sticky-proxy.js matches the whole target and forwards what is left of it. */
  function NodeRoute(u: string): Route {
    match NodeMatch(u)
    case None => NoRoute
    case Some(m) => Forward(m.id, OrSlash(m.rest))
  }

  /** Each engine accepts exactly the language of the expression without the characters its "." leaves out. */
  lemma MatchesMean(p: string, m: TenantPath)
    ensures GoMatch(p) == Some(m) <==> Denotes(p, m) && '\n' !in p
    ensures NodeMatch(p) == Some(m)
       <==> Denotes(p, m) && '\n' !in p && '\r' !in p && '\U{2028}' !in p && '\U{2029}' !in p
  {
    hide ParsePath, Denotes;
    ParseIsDenotation(p, m);
  }

  /** Both forward the rest of the path, or "/" if there is none, and Go a query that is not empty. */
  lemma RoutesMean(u: string, id: string, rest: string)
    requires Plain(u) && IsId(id) && (rest == "" || rest[0] == '/')
    ensures PathOf(u) == "/t/" + id + rest ==>
              var path, query := if rest == "" then "/" else rest, if QueryOf(u) == "" then "" else "?" + QueryOf(u);
              GoRoute(u) == Forward(id, path + query)
    ensures u == "/t/" + id + rest ==> NodeRoute(u) == Forward(id, if rest == "" then "/" else rest)
  {
    hide ParsePath, Plain;
    PlainIsOneLine(u);
    ParseIsDenotation(PathOf(u), TenantPath(id, rest));
    ParseIsDenotation(u, TenantPath(id, rest));
  }

  /** The plain targets the two proxies treat differently: "?" directly after the id, or "?" at the very end. */
  predicate RoutesDiffer(u: string) {
    && '?' in u && ParsePath(PathOf(u)).Some?
    && (ParsePath(PathOf(u)).value.rest == "" || QueryOf(u) == "")
  }

  lemma CutAt(p: string, q: string)
    requires '?' !in p
    ensures PathOf(p + "?" + q) == p && QueryOf(p + "?" + q) == q
  {
    var u := p + "?" + q;
    assert u[|p|] == '?';
    assert u == PathOf(u) + "?" + QueryOf(u);
    FirstDelimiter(p, q, PathOf(u), QueryOf(u), '?');
  }

  lemma Cut(u: string)
    requires '?' in u
    ensures u == PathOf(u) + "?" + QueryOf(u) && '?' !in PathOf(u)
  {
    var i := FirstIndex(u, '?');
    assert u == u[..i] + [u[i]] + u[i + 1..];
  }

  /** With a path after the id, Node sees the same id and the path with its query. */
  lemma QueryStaysInRest(p: string, q: string, m: TenantPath)
    requires ParsePath(p) == Some(m) && m.rest != ""
    ensures ParsePath(p + "?" + q) == Some(TenantPath(m.id, m.rest + "?" + q))
  {
    ParseIsDenotation(p, m);
    assert p + "?" + q == PREFIX + m.id + (m.rest + "?" + q);
    ParseIsDenotation(p + "?" + q, TenantPath(m.id, m.rest + "?" + q));
  }

  /** With nothing after the id, Node finds no tenant. */
  lemma QueryAfterId(p: string, q: string, m: TenantPath)
    requires ParsePath(p) == Some(m) && m.rest == ""
    ensures ParsePath(p + "?" + q) == None
  {
    ParseIsDenotation(p, m);
    assert p + "?" + q == PREFIX + (m.id + ("?" + q));
    RunIsId(m.id, "?" + q);
  }

  /** What Node can read as a tenant path, Go can read too. */
  lemma NodeReadsLess(p: string, q: string, m: TenantPath)
    requires '?' !in p && ParsePath(p + "?" + q) == Some(m)
    ensures ParsePath(p).Some?
  {
    var u := p + "?" + q;
    ParseIsDenotation(u, m);
    var head := PREFIX + m.id;
    assert forall j | 0 <= j < |head| :: u[j] == head[j] != '?';
    assert u[|p|] == '?' && |p| >= |head| && u == head + m.rest;
    var k := |p| - |head|;
    assert m.rest[k] == '?';
    assert p == u[..|p|] == PREFIX + m.id + m.rest[..k];
    ParseIsDenotation(p, TenantPath(m.id, m.rest[..k]));
  }

  /** Go routes as Node did on every plain target but those. */
  lemma RoutesAgree(u: string)
    requires Plain(u)
    ensures GoRoute(u) == NodeRoute(u) <==> !RoutesDiffer(u)
  {
    hide Plain, ParsePath;
    PlainIsOneLine(u);
    if '?' in u {
      Cut(u);
      var p, q := PathOf(u), QueryOf(u);
      match ParsePath(p)
      case Some(m) =>
        if m.rest == "" { QueryAfterId(p, q, m); } else { QueryStaysInRest(p, q, m); TailLength(m.rest, q); }
      case None =>
        if ParsePath(u).Some? { NodeReadsLess(p, q, ParsePath(u).value); }
    }
  }

  lemma TailLength(rest: string, q: string)
    ensures rest + "?" + q == rest + (if q == "" then "" else "?" + q) <==> q != ""
  {
    if q == "" {
      assert |rest + "?" + q| != |rest + ""|;
    } else {
      assert rest + "?" + q == rest + ("?" + q);
    }
  }

  lemma PlainWithQuery(p: string, q: string)
    requires Plain(p) && '?' !in p && forall i | 0 <= i < |q| :: Visible(q[i])
    ensures Plain(p + "?" + q)
  {
    CutAt(p, q);
  }

  lemma GoForwards(p: string, q: string, m: TenantPath)
    requires Plain(p + "?" + q) && '?' !in p && ParsePath(p) == Some(m)
    ensures GoRoute(p + "?" + q) == Forward(m.id, OrSlash(m.rest) + if q == "" then "" else "?" + q)
  {
    hide Plain, ParsePath;
    PlainIsOneLine(p + "?" + q);
    CutAt(p, q);
  }

  lemma TenantRootIsPlain(id: string)
    requires IsId(id)
    ensures Plain(PREFIX + id) && '?' !in PREFIX + id && ParsePath(PREFIX + id) == Some(TenantPath(id, ""))
  {
    hide ParsePath, CleanPath;
    var p := PREFIX + id;
    assert p == PREFIX + id + "";
    ParseIsDenotation(p, TenantPath(id, ""));
    assert forall i | 0 <= i < |p| :: p[i] in {'/', 't'} || IsDigit(p[i]);
    assert p[0] == '/' && '?' !in p;
    TenantRootIsClean(id);
  }

  lemma TenantRootIsClean(id: string)
    requires IsId(id)
    ensures CleanPath(PREFIX + id)
  {
    var p := PREFIX + id;
    forall i | 0 <= i < |p| - 1 && p[i] == '/'
      ensures p[i + 1] != '/' && !DotSegmentAt(p, i)
    {
      assert p[i + 1] == if i == 0 then 't' else id[i - 2];
      assert p[i + 1..][0] == p[i + 1] != '.';
    }
  }

  /** The first difference, at every tenant: with a query right after the id, only Go finds the tenant. */
  lemma QueryRightAfterId(id: string, q: string) returns (u: string)
    requires IsId(id) && forall i | 0 <= i < |q| :: Visible(q[i])
    ensures u == PREFIX + id + "?" + q && Plain(u)
    ensures GoRoute(u).Forward? && GoRoute(u).id == id && NodeRoute(u) == NoRoute
  {
    hide Plain, ParsePath, GoRoute;
    var p := PREFIX + id;
    u := p + "?" + q;
    TenantRootIsPlain(id);
    PlainWithQuery(p, q);
    PlainIsOneLine(u);
    GoForwards(p, q, TenantPath(id, ""));
    QueryAfterId(p, q, TenantPath(id, ""));
  }

  /** The second: a bare "?" after a path is dropped by Go and forwarded by Node. */
  lemma BareQuestionMark(p: string, m: TenantPath) returns (u: string)
    requires Plain(p) && '?' !in p && ParsePath(p) == Some(m) && m.rest != ""
    ensures u == p + "?" + "" && Plain(u)
    ensures GoRoute(u) == Forward(m.id, m.rest) && NodeRoute(u) == Forward(m.id, m.rest + "?")
  {
    hide Plain, ParsePath, GoRoute;
    u := p + "?" + "";
    PlainWithQuery(p, "");
    PlainIsOneLine(u);
    GoForwards(p, "", m);
    QueryStaysInRest(p, "", m);
    assert m.rest + "?" + "" == m.rest + "?" && m.rest + "" == m.rest;
  }
}
