/**
  The Go and the Node proxy on the same request, whoever sends it: the tenant, the
  forwarded target and the pod the client is kept on.
 */
module ProxyAgreement {
  import opened Options
  import opened Text
  import opened Cookie
  import opened CookieHeader
  import opened Routing
  import opened Affinity
  import opened AffinityRun

  // ----- The cookie each proxy sees -----

  function LastNamed(cookies: seq<(string, string)>, name: string): Option<string> {
    if cookies == [] then None
    else
      var n := |cookies| - 1;
      if cookies[n].0 == name then Some(cookies[n].1) else LastNamed(cookies[..n], name)
  }

  lemma {:induction false} HeldIsLast(cookies: seq<(string, string)>, name: string)
    ensures LastNamed(cookies, name) == if name in Held(cookies) then Some(Held(cookies)[name]) else None
  {
    if cookies != [] {
      HeldIsLast(cookies[..|cookies| - 1], name);
    }
  }

  predicate TokenNames(cookies: seq<(string, string)>) {
    forall i | 0 <= i < |cookies| :: IsToken(cookies[i].0)
  }

  /** The cookie Node sees is the last of the name. */
  lemma {:induction false} LastNamedMeans(cookies: seq<(string, string)>, name: string, v: string)
    ensures LastNamed(cookies, name) == Some(v)
       <==> exists i :: 0 <= i < |cookies| && cookies[i] == (name, v)
              && forall j | i < j < |cookies| :: cookies[j].0 != name
  {
    if cookies != [] {
      var n := |cookies| - 1;
      var front := cookies[..n];
      if cookies[n].0 != name {
        LastNamedMeans(front, name, v);
        if LastNamed(front, name) == Some(v) {
          var i :| 0 <= i < n && front[i] == (name, v) && forall j | i < j < n :: front[j].0 != name;
          assert cookies[i] == front[i] && forall j | i < j < n :: cookies[j] == front[j];
        }
        if i :| 0 <= i < |cookies| && cookies[i] == (name, v) && forall j | i < j < |cookies| :: cookies[j].0 != name {
          assert front[i] == cookies[i] && forall j | i < j < n :: front[j] == cookies[j];
        }
      }
    }
  }

  /** Of several cookies of one name Go takes the first it can read and Node the last. */
  lemma FirstAgainstLast(r: Request, id: string)
    requires AllClean(r.sent)
    ensures Seen(r.(replica := Go), CookieName(id)) == FirstNamed(r.sent, CookieName(id))
    ensures Seen(r.(replica := Node), CookieName(id)) == LastNamed(r.sent, CookieName(id))
  {
    hide Parsed, Print, Held, AllClean, FirstNamed, LastNamed;
    var name := CookieName(id);
    ParsedInvertsPrint(r.sent);
    HeldIsLast(r.sent, name);
    assert name[0] == 'a' && PROTO[0] == '_';
  }

  /** With at most one cookie of the name, if Go reads it as it stands, both see the same. */
  lemma OneOfTheName(cookies: seq<(string, string)>, name: string)
    requires forall i, j | 0 <= i < j < |cookies| :: cookies[i].0 != name || cookies[j].0 != name
    requires forall i | 0 <= i < |cookies| && cookies[i].0 == name :: GoValue(cookies[i].1) == Some(cookies[i].1)
    ensures FirstNamed(cookies, name) == LastNamed(cookies, name)
  {
    if exists i :: 0 <= i < |cookies| && cookies[i].0 == name {
      var i :| 0 <= i < |cookies| && cookies[i].0 == name;
      FirstNamedIs(cookies, name, cookies[i].1);
      LastNamedIs(cookies, name, cookies[i].1);
    } else {
      FirstNamedIs(cookies, name, "");
      LastNamedIs(cookies, name, "");
    }
  }

  lemma LastNamedIs(cookies: seq<(string, string)>, name: string, value: string)
    requires forall i | 0 <= i < |cookies| && cookies[i].0 == name :: cookies[i].1 == value
    ensures LastNamed(cookies, name) == if (name, value) in cookies then Some(value) else None
  {
    HeldIs(cookies, name, value);
    HeldIsLast(cookies, name);
  }

  // ----- The pod -----

  /** The cookie is the signed form of a ready address. */
  predicate NamesReady(mac: Mac, cookie: Option<string>, ready: seq<string>) {
    exists ip | ip in ready :: cookie == Some(Sign(mac, ip))
  }

  /** The same cookie, not that of an empty ready address; or two cookies neither of which names a ready pod. */
  predicate CookiesAgree(mac: Mac, first: Option<string>, last: Option<string>, ready: seq<string>) {
    if first == last then !(first == Some(Sign(mac, "")) && "" in ready)
    else !NamesReady(mac, first, ready) && (NamesReady(mac, last, ready) ==> last == Some(Sign(mac, "")))
  }

  lemma StickyMeans(mac: Mac, cookie: Option<string>, ready: seq<string>, ip: string)
    ensures StickyPod(mac, cookie, ready) == Some(ip) <==> cookie == Some(Sign(mac, ip)) && ip in ready
    ensures NodePod(mac, cookie, ready) == Some(ip) <==> cookie == Some(Sign(mac, ip)) && ip in ready && ip != ""
    ensures StickyPod(mac, cookie, ready).Some? <==> NamesReady(mac, cookie, ready)
  {
    hide Sign;
    if cookie.Some? {
      VerifyInvertsSign(mac, cookie.value, ip);
      VerifiersAgree(mac, cookie.value);
      var (v, ok) := VerifyGo(mac, cookie.value);
      VerifyInvertsSign(mac, cookie.value, v);
      SignIsNotEmpty(mac, ip);
      if NamesReady(mac, cookie, ready) {
        var p :| p in ready && cookie == Some(Sign(mac, p));
        VerifyInvertsSign(mac, cookie.value, p);
      }
    }
  }

  lemma SignIsNotEmpty(mac: Mac, v: string)
    ensures Sign(mac, v) != ""
  {
    assert Sign(mac, v)[|v|] == '.';
  }

  lemma PodsAgree(mac: Mac, first: Option<string>, last: Option<string>, ready: seq<string>)
    ensures StickyPod(mac, first, ready) == NodePod(mac, last, ready) <==> CookiesAgree(mac, first, last, ready)
  {
    hide Sign, StickyPod, NodePod, NamesReady;
    var p, q := StickyPod(mac, first, ready), NodePod(mac, last, ready);
    StickyMeans(mac, first, ready, "");
    StickyMeans(mac, last, ready, "");
    if p.Some? {
      StickyMeans(mac, first, ready, p.value);
      StickyMeans(mac, last, ready, p.value);
    }
    if q.Some? {
      StickyMeans(mac, first, ready, q.value);
      StickyMeans(mac, last, ready, q.value);
    }
    var l := StickyPod(mac, last, ready);
    if l.Some? {
      StickyMeans(mac, last, ready, l.value);
      SignInjective(mac, l.value, "");
    }
  }

  // ----- The whole decision -----

  /** Refused, or forwarded to a tenant's pod: the sticky one, or one picked anew. */
  datatype Decision = NoTenant | ToPod(id: string, target: string, sticky: Option<string>)

  function DecisionOf(route: Route, sticky: Option<string>): Decision {
    if route.NoRoute? then NoTenant else ToPod(route.id, route.target, sticky)
  }

  function IdOf(route: Route): string {
    if route.NoRoute? then "" else route.id
  }

  function GoDecision(mac: Mac, r: Request): Decision
    requires Plain(r.target)
  {
    var route := GoRoute(r.target);
    DecisionOf(route, Sticky(mac, r.(replica := Go), IdOf(route)))
  }

  function NodeDecision(mac: Mac, r: Request): Decision {
    var route := NodeRoute(r.target);
    DecisionOf(route, Sticky(mac, r.(replica := Node), IdOf(route)))
  }

  /**
    On every plain request with any well-formed cookies, forged, foreign, quoted or repeated
    ones included, and the same ready pods, the two proxies decide alike if and only if they
    route alike and, for a tenant, the first cookie of its name that Go can read agrees with
    the last.
   */
  lemma ProxiesDecideAlike(mac: Mac, r: Request)
    requires Plain(r.target) && AllClean(r.sent) && TokenNames(r.sent)
    ensures GoDecision(mac, r) == NodeDecision(mac, r)
       <==> && !RoutesDiffer(r.target)
            && (var route := GoRoute(r.target);
                route.Forward? ==>
                  var name := CookieName(route.id);
                  CookiesAgree(mac, FirstNamed(r.sent, name), LastNamed(r.sent, name), r.ready))
  {
    hide Plain, AllClean, GoRoute, NodeRoute, RoutesDiffer, CookiesAgree, FirstNamed, LastNamed, StickyPod, NodePod,
      Seen;
    var u := r.target;
    RoutesAgree(u);
    var route := GoRoute(u);
    if route == NodeRoute(u) && route.Forward? {
      var name := CookieName(route.id);
      FirstAgainstLast(r, route.id);
      PodsAgree(mac, FirstNamed(r.sent, name), LastNamed(r.sent, name), r.ready);
    }
  }

  // ----- Where they part -----

  /**
    Two genuine cookies of the tenant's name, for two ready pods: Go keeps the client on the
    first, Node on the second.
   */
  lemma DuplicatesPart(mac: Mac, id: string, one: string, two: string, r: Request)
    requires IsId(id) && IsAddress(one) && IsAddress(two) && one != two
    requires r.target == "/t/" + id && r.ready == [one, two]
    requires r.sent == [("affinity_t" + id, Sign(mac, one)), ("affinity_t" + id, Sign(mac, two))]
    ensures Plain(r.target) && AllClean(r.sent) && TokenNames(r.sent)
    ensures GoDecision(mac, r) == ToPod(id, "/", Some(one)) && NodeDecision(mac, r) == ToPod(id, "/", Some(two))
  {
    hide Plain, Clean, Sign, ParsePath, Seen, StickyPod, NodePod;
    TenantRootIsPlain(id);
    PlainIsOneLine(r.target);
    AffinityCookieIsClean(mac, id, one);
    AffinityCookieIsClean(mac, id, two);
    FirstAgainstLast(r, id);
    SignIsReadable(mac, one);
    StickyMeans(mac, Some(Sign(mac, one)), r.ready, one);
    StickyMeans(mac, Some(Sign(mac, two)), r.ready, two);
    assert one in r.ready && two in r.ready;
  }

  /** A genuine cookie in quotes: Go strips them and keeps the client on its pod, Node picks anew. */
  lemma QuotesPart(mac: Mac, id: string, pod: string, r: Request)
    requires IsId(id) && IsAddress(pod)
    requires r.target == PREFIX + id && r.ready == [pod]
    requires r.sent == [(CookieName(id), "\"" + Sign(mac, pod) + "\"")]
    ensures Plain(r.target) && AllClean(r.sent) && TokenNames(r.sent)
    ensures GoDecision(mac, r) == ToPod(id, "/", Some(pod)) && NodeDecision(mac, r) == ToPod(id, "/", None)
  {
    hide Plain, Sign, ParsePath, Seen, StickyPod, NodePod, Clean, GoValue;
    TenantRootIsPlain(id);
    PlainIsOneLine(r.target);
    QuotedReads(mac, id, pod);
    FirstAgainstLast(r, id);
    StickyMeans(mac, Some(Sign(mac, pod)), r.ready, pod);
    QuotedIsNoCookie(mac, pod, r.ready);
  }

  lemma QuotedReads(mac: Mac, id: string, pod: string)
    requires IsId(id) && IsAddress(pod)
    ensures var v := Sign(mac, pod); var quoted := "\"" + v + "\"";
            Clean(CookieName(id), quoted) && IsToken(CookieName(id)) && GoValue(quoted) == Some(v)
  {
    hide Sign, IsToken;
    var v, quoted := Sign(mac, pod), "\"" + Sign(mac, pod) + "\"";
    AffinityCookieIsClean(mac, id, pod);
    SignIsReadable(mac, pod);
    SignStarts(mac, pod);
    assert quoted[0] == '"' && quoted[|quoted| - 1] == '"' && quoted[1..|quoted| - 1] == v;
    var inner := quoted[1..|quoted| - 1];
    assert inner == v;
    assert GoValue(quoted) == Some(inner);
    forall i | 0 <= i < |quoted|
      ensures quoted[i] != ';'
    {
      if 0 < i < |quoted| - 1 { assert quoted[i] == v[i - 1]; }
    }
  }

  lemma SignStarts(mac: Mac, pod: string)
    requires IsAddress(pod)
    ensures Sign(mac, pod) != "" && Sign(mac, pod)[0] == pod[0] != '"'
  {}

  lemma SignEnds(mac: Mac, v: string)
    ensures Sign(mac, v) != "" && Sign(mac, v)[|Sign(mac, v)| - 1] != '"'
  {
    var d := mac(v);
    assert Sign(mac, v)[|Sign(mac, v)| - 1] == d[63] && IsHex(d[63]);
  }

  lemma QuotedIsNoCookie(mac: Mac, pod: string, ready: seq<string>)
    ensures NodePod(mac, Some("\"" + Sign(mac, pod) + "\""), ready) == None
  {
    hide Sign, NodePod;
    var quoted := "\"" + Sign(mac, pod) + "\"";
    assert quoted[|quoted| - 1] == '"';
    var sticky := NodePod(mac, Some(quoted), ready);
    if sticky.Some? {
      SignEnds(mac, sticky.value);
      StickyMeans(mac, Some(quoted), ready, sticky.value);
    }
  }
}
