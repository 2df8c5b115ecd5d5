/** A client's whole session with a mixed fleet of Go and Node replicas. */
module AffinityRun {
  import opened Options
  import opened Text
  import opened Cookie
  import opened CookieHeader
  import opened Routing
  import opened Affinity

  const NAME_PREFIX := "affinity_t"

  function CookieName(id: string): string {
    NAME_PREFIX + id
  }

  /** A user agent stores a cookie under its name and path. */
  datatype Slot = Slot(name: string, path: string)

  function SlotFor(id: string): Slot {
    Slot(CookieName(id), CookiePath(id))
  }

  datatype Replica = Go | Node

  /** Reached: the pod answered. Unreachable: 502. LookupFailed: Node could not list the endpoints, 500. */
  datatype Upstream = Reached | Unreachable | LookupFailed

  /** One request, with the replica that takes it, what that replica sees as ready, and what it would pick. */
  datatype Request = Request(
    target: string, sent: seq<(string, string)>, replica: Replica, ready: seq<string>, pick: nat, upstream: Upstream)

  datatype Client = Client(jar: map<Slot, string>, last: map<string, string>)

  const NEW_CLIENT := Client(map[], map[])

  /** Bytes that Go accepts in a cookie value. */
  predicate GoValueChar(c: char) {
    ' ' <= c <= '~' && c != '"' && c != ';' && c != '\\'
  }

  predicate Readable(v: string) {
    forall i | 0 <= i < |v| :: GoValueChar(v[i])
  }

  /** Go strips a pair of quotes around a value and skips a cookie whose value then has any other byte. */
  function GoValue(v: string): Option<string> {
    var inner := if |v| > 1 && v[0] == '"' && v[|v| - 1] == '"' then v[1..|v| - 1] else v;
    if Readable(inner) then Some(inner) else None
  }

  /** Request.Cookie: the first cookie of the name that Go can read. */
  function FirstNamed(cookies: seq<(string, string)>, name: string): Option<string> {
    if cookies == [] then None
    else if cookies[0].0 == name && GoValue(cookies[0].1).Some? then GoValue(cookies[0].1)
    else FirstNamed(cookies[1..], name)
  }

  /** What the replica sees of the cookie: Go reads the list, Node parses the printed header. */
  function Seen(r: Request, name: string): Option<string> {
    match r.replica
    case Go => FirstNamed(r.sent, name)
    case Node => var cookies := Parsed(Print(r.sent)); if name in cookies then Some(cookies[name]) else None
  }

  function TenantOf(r: Request): Option<string>
    requires Plain(r.target)
  {
    var m := match r.replica case Go => GoMatch(PathOf(r.target)) case Node => NodeMatch(r.target);
    if m.None? then None else Some(m.value.id)
  }

  function Sticky(mac: Mac, r: Request, id: string): Option<string> {
    match r.replica
    case Go => StickyPod(mac, Seen(r, CookieName(id)), r.ready)
    case Node => NodePod(mac, Seen(r, CookieName(id)), r.ready)
  }

  /** The pod a request for tenant id is sent to. */
  function Target(mac: Mac, r: Request, id: string): string
    requires r.pick < |r.ready|
  {
    var pod := Sticky(mac, r, id);
    if pod.Some? then pod.value else r.ready[r.pick]
  }

  /** 404, 503, 500 and 502 carry no cookie; an answer carries one unless the pod was the sticky one. */
  function Serve(mac: Mac, c: Client, r: Request): Client
    requires Plain(r.target) && (r.ready != [] ==> r.pick < |r.ready|)
  {
    var id := TenantOf(r);
    if id.None? || r.ready == [] || !r.upstream.Reached? then c
    else
      var pod := Target(mac, r, id.value);
      var jar := if Sticky(mac, r, id.value).Some? then c.jar else c.jar[SlotFor(id.value) := Sign(mac, pod)];
      Client(jar, c.last[id.value := pod])
  }

  // ----- Runs -----

  predicate IsAddress(ip: string) {
    ip != "" && forall i | 0 <= i < |ip| :: IsHex(ip[i]) || 'A' <= ip[i] <= 'F' || ip[i] == '.' || ip[i] == ':'
  }

  /**
    The client sends what it holds for the path, in any order, along with cookies of
    the app that are not named like an affinity cookie; ready lists hold addresses.
   */
  ghost predicate Plausible(c: Client, r: Request) {
    && Plain(r.target) && (r.ready != [] ==> r.pick < |r.ready|)
    && (forall i | 0 <= i < |r.ready| :: IsAddress(r.ready[i]))
    && AllClean(r.sent)
    && (forall i | 0 <= i < |r.sent| && NAME_PREFIX <= r.sent[i].0 :: HeldAs(c, r, r.sent[i]))
    && (forall s | s in c.jar && PathMatch(PathOf(r.target), s.path) :: (s.name, c.jar[s]) in r.sent)
  }

  ghost predicate HeldAs(c: Client, r: Request, cookie: (string, string)) {
    exists s :: s in c.jar && PathMatch(PathOf(r.target), s.path) && cookie == (s.name, c.jar[s])
  }

  ghost function After(mac: Mac, requests: seq<Request>): Option<Client> {
    if requests == [] then Some(NEW_CLIENT)
    else
      var n := |requests| - 1;
      var c := After(mac, requests[..n]);
      if c.Some? && Plausible(c.value, requests[n]) then Some(Serve(mac, c.value, requests[n])) else None
  }

  /**
    The jar holds exactly one affinity cookie per tenant that ever answered, and it names
    the pod that answered last.
   */
  ghost predicate Faithful(mac: Mac, c: Client) {
    && (forall id | id in c.last ::
          IsId(id) && IsAddress(c.last[id]) && SlotFor(id) in c.jar && c.jar[SlotFor(id)] == Sign(mac, c.last[id]))
    && (forall s | s in c.jar :: exists id :: id in c.last && s == SlotFor(id))
  }

  // ----- Proof -----

  lemma SlotInjective(x: string, y: string)
    ensures CookieName(x) == CookieName(y) <==> x == y
    ensures SlotFor(x) == SlotFor(y) <==> x == y
  {
    if CookieName(x) == CookieName(y) { SamePrefix(NAME_PREFIX, x, y); }
  }

  /** Whichever proxy reads it, a target with a tenant has that tenant in its path. */
  lemma TenantOfPath(r: Request, id: string)
    requires Plain(r.target) && TenantOf(r) == Some(id)
    ensures IsId(id) && forall t | IsId(t) :: PathMatch(PathOf(r.target), CookiePath(t)) <==> t == id
  {
    hide Plain;
    var u := r.target;
    PlainIsOneLine(u);
    if r.replica.Node? && '?' in u {
      Cut(u);
      NodeReadsLess(PathOf(u), QueryOf(u), ParsePath(u).value);
      var m := ParsePath(PathOf(u)).value;
      if m.rest == "" { QueryAfterId(PathOf(u), QueryOf(u), m); } else { QueryStaysInRest(PathOf(u), QueryOf(u), m); }
    }
    var m := ParsePath(PathOf(u)).value;
    ParseIsDenotation(PathOf(u), m);
    forall t | IsId(t)
      ensures PathMatch(PathOf(u), CookiePath(t)) <==> t == id
    {
      CookieScopeIsRoutingScope(PathOf(u), m, t);
    }
  }

  lemma {:induction false} FirstNamedIs(cookies: seq<(string, string)>, name: string, value: string)
    requires forall i | 0 <= i < |cookies| && cookies[i].0 == name :: cookies[i].1 == value
    requires GoValue(value) == Some(value)
    ensures FirstNamed(cookies, name) == if (name, value) in cookies then Some(value) else None
  {
    if cookies != [] {
      assert cookies == [cookies[0]] + cookies[1..];
      FirstNamedIs(cookies[1..], name, value);
    }
  }

  lemma {:induction false} HeldIs(cookies: seq<(string, string)>, name: string, value: string)
    requires forall i | 0 <= i < |cookies| && cookies[i].0 == name :: cookies[i].1 == value
    ensures (name in Held(cookies) <==> (name, value) in cookies)
    ensures (name in Held(cookies) ==> Held(cookies)[name] == value)
  {
    if cookies != [] {
      var n := |cookies| - 1;
      assert cookies == cookies[..n] + [cookies[n]];
      HeldIs(cookies[..n], name, value);
    }
  }

  /** Every replica sees the cookie of the request's tenant exactly when the client holds one. */
  lemma SeenIsHeld(mac: Mac, c: Client, r: Request, id: string)
    requires Faithful(mac, c) && Plausible(c, r) && TenantOf(r) == Some(id)
    ensures Seen(r, CookieName(id)) == if id in c.last then Some(Sign(mac, c.last[id])) else None
  {
    hide Faithful, Plausible, TenantOf, Sign, Parsed, Print, Held, FirstNamed, AllClean;
    var name := CookieName(id);
    var value := if id in c.last then Sign(mac, c.last[id]) else "";
    SentIsHeld(mac, c, r, id, value);
    assert GoValue(value) == Some(value) by { if id in c.last { LastIsReadable(mac, c, id); } }
    FirstNamedIs(r.sent, name, value);
    HeldIs(r.sent, name, value);
    assert AllClean(r.sent) by { SentIsClean(c, r); }
    ParsedInvertsPrint(r.sent);
    assert name[0] == 'a' && PROTO[0] == '_';
  }

  lemma LastIsReadable(mac: Mac, c: Client, id: string)
    requires Faithful(mac, c) && id in c.last
    ensures GoValue(Sign(mac, c.last[id])) == Some(Sign(mac, c.last[id]))
  {
    SignIsReadable(mac, c.last[id]);
  }

  /** Go reads a value as it stands or without one pair of quotes, if what is left has only bytes it allows. */
  lemma GoValueMeans(v: string, w: string)
    ensures GoValue(v) == Some(w)
       <==> && (v == w || v == ['"'] + w + ['"'])
            && forall i | 0 <= i < |w| :: ' ' <= w[i] <= '~' && w[i] !in {'"', ';', '\\'}
  {
    if v == ['"'] + w + ['"'] { assert v[0] == '"' && v[|v| - 1] == '"' && v[1..|v| - 1] == w; }
    if |v| > 1 && v[0] == '"' && v[|v| - 1] == '"' {
      var inner := v[1..|v| - 1];
      assert v == ['"'] + inner + ['"'];
      if v == w { assert w[0] == '"'; }
    }
    assert Readable(w) <==> forall i | 0 <= i < |w| :: ' ' <= w[i] <= '~' && w[i] !in {'"', ';', '\\'};
  }

  /** The cookie Go sees is the first of the name that it can read. */
  lemma {:induction false} FirstNamedMeans(cookies: seq<(string, string)>, name: string, v: string)
    ensures FirstNamed(cookies, name) == Some(v)
       <==> exists i :: 0 <= i < |cookies| && cookies[i].0 == name && GoValue(cookies[i].1) == Some(v)
              && forall j | 0 <= j < i :: cookies[j].0 == name ==> GoValue(cookies[j].1) == None
  {
    hide GoValue;
    if cookies != [] && !(cookies[0].0 == name && GoValue(cookies[0].1).Some?) {
      var rest := cookies[1..];
      FirstNamedMeans(rest, name, v);
      if FirstNamed(rest, name) == Some(v) {
        var i :| 0 <= i < |rest| && rest[i].0 == name && GoValue(rest[i].1) == Some(v)
                 && forall j | 0 <= j < i :: rest[j].0 == name ==> GoValue(rest[j].1) == None;
        assert cookies[i + 1] == rest[i];
        assert forall j | 0 <= j < i + 1 :: j > 0 ==> cookies[j] == rest[j - 1];
      }
      if i :| 0 <= i < |cookies| && cookies[i].0 == name && GoValue(cookies[i].1) == Some(v)
              && forall j | 0 <= j < i :: cookies[j].0 == name ==> GoValue(cookies[j].1) == None {
        assert rest[i - 1] == cookies[i];
        assert forall j | 0 <= j < i - 1 :: rest[j] == cookies[j + 1];
      }
    }
  }

  /** What the proxies sign, Go reads as it stands. */
  lemma SignIsReadable(mac: Mac, pod: string)
    requires IsAddress(pod)
    ensures GoValue(Sign(mac, pod)) == Some(Sign(mac, pod))
    ensures forall i | 0 <= i < |Sign(mac, pod)| :: GoValueChar(Sign(mac, pod)[i])
  {
    var v, d := Sign(mac, pod), mac(pod);
    assert forall i | 0 <= i < |d| :: IsHex(d[i]);
    assert forall i | 0 <= i < |v| ::
             v[i] == if i < |pod| then pod[i] else if i == |pod| then '.' else d[i - |pod| - 1];
    assert v[0] != '"' && forall i | 0 <= i < |v| :: GoValueChar(v[i]);
  }

  /** A token of section 4.1.1 of RFC 6265. */
  predicate IsToken(k: string) {
    k != "" && forall i | 0 <= i < |k| :: '!' <= k[i] <= '~' && k[i] !in "()<>@,;:\\\"/[]?={}"
  }

  lemma AffinityCookieIsClean(mac: Mac, id: string, pod: string)
    requires IsId(id) && IsAddress(pod)
    ensures Clean(CookieName(id), Sign(mac, pod)) && IsToken(CookieName(id))
  {
    var k, v, d := CookieName(id), Sign(mac, pod), mac(pod);
    assert forall i | 0 <= i < |k| :: k[i] == if i < |NAME_PREFIX| then NAME_PREFIX[i] else id[i - |NAME_PREFIX|];
    assert forall i | 0 <= i < |d| :: IsHex(d[i]);
    assert forall i | 0 <= i < |v| ::
             v[i] == if i < |pod| then pod[i] else if i == |pod| then '.' else d[i - |pod| - 1];
    assert v[|v| - 1] == d[63];
  }

  lemma SentIsClean(c: Client, r: Request)
    requires Plausible(c, r)
    ensures AllClean(r.sent)
  {}

  lemma SentIsHeld(mac: Mac, c: Client, r: Request, id: string, value: string)
    requires Faithful(mac, c) && Plausible(c, r) && TenantOf(r) == Some(id)
    requires id in c.last ==> value == Sign(mac, c.last[id])
    ensures forall i | 0 <= i < |r.sent| && r.sent[i].0 == CookieName(id) :: id in c.last && r.sent[i].1 == value
    ensures id in c.last ==> (CookieName(id), value) in r.sent
    ensures id !in c.last ==> (CookieName(id), value) !in r.sent
  {
    hide Sign, Plain, AllClean, IsAddress, TenantOf, IsId;
    TenantOfPath(r, id);
    forall i | 0 <= i < |r.sent| && r.sent[i].0 == CookieName(id)
      ensures id in c.last && r.sent[i].1 == value
    {
      assert HeldAs(c, r, r.sent[i]);
      var s :| s in c.jar && PathMatch(PathOf(r.target), s.path) && r.sent[i] == (s.name, c.jar[s]);
      var t :| t in c.last && s == SlotFor(t);
      SlotInjective(t, id);
    }
    if id in c.last { assert SlotFor(id) in c.jar; }
  }

  /** A client with a last pod stays on it unless the replica that takes the request does not list it. */
  lemma StickyIsLast(mac: Mac, c: Client, r: Request, id: string)
    requires Faithful(mac, c) && Plausible(c, r) && TenantOf(r) == Some(id)
    ensures Sticky(mac, r, id) == if id in c.last && c.last[id] in r.ready then Some(c.last[id]) else None
  {
    SeenIsHeld(mac, c, r, id);
    if id in c.last {
      VerifyInvertsSign(mac, Sign(mac, c.last[id]), c.last[id]);
      ProxiesStickAlike(mac, Some(Sign(mac, c.last[id])), r.ready);
      SignInjective(mac, c.last[id], "");
    }
  }

  /** An answer leaves the client with the answering pod's cookie and with everything else as it was. */
  lemma AnswerIsStored(mac: Mac, c: Client, r: Request, id: string)
    requires Faithful(mac, c) && Plausible(c, r) && TenantOf(r) == Some(id) && r.ready != [] && r.upstream.Reached?
    ensures var pod := Target(mac, r, id);
            IsAddress(pod) && Serve(mac, c, r) == Client(c.jar[SlotFor(id) := Sign(mac, pod)], c.last[id := pod])
  {
    hide Sticky, Sign, SlotFor, IsAddress, AllClean, HeldAs, PathMatch, ParsePath;
    StickyIsLast(mac, c, r, id);
    if Sticky(mac, r, id).Some? {
      assert c.jar[SlotFor(id) := Sign(mac, c.last[id])] == c.jar;
    }
  }

  lemma StoredIsFaithful(mac: Mac, c: Client, id: string, pod: string)
    requires Faithful(mac, c) && IsId(id) && IsAddress(pod)
    ensures Faithful(mac, Client(c.jar[SlotFor(id) := Sign(mac, pod)], c.last[id := pod]))
  {
    hide Sign, IsAddress, IsId, SlotFor;
    var c' := Client(c.jar[SlotFor(id) := Sign(mac, pod)], c.last[id := pod]);
    forall t | t in c'.last
      ensures IsId(t) && IsAddress(c'.last[t]) && SlotFor(t) in c'.jar && c'.jar[SlotFor(t)] == Sign(mac, c'.last[t])
    {
      SlotInjective(t, id);
    }
    forall s | s in c'.jar
      ensures exists t :: t in c'.last && s == SlotFor(t)
    {
      if s in c.jar {
        var t :| t in c.last && s == SlotFor(t);
        assert t in c'.last && s == SlotFor(t);
      } else {
        assert id in c'.last && s == SlotFor(id);
      }
    }
  }

  lemma ServeKeepsFaith(mac: Mac, c: Client, r: Request)
    requires Faithful(mac, c) && Plausible(c, r)
    ensures Faithful(mac, Serve(mac, c, r))
  {
    hide Faithful, Sticky;
    var id := TenantOf(r);
    if id.Some? && r.ready != [] && r.upstream.Reached? {
      TenantOfPath(r, id.value);
      AnswerIsStored(mac, c, r, id.value);
      StoredIsFaithful(mac, c, id.value, Target(mac, r, id.value));
    }
  }

  lemma {:induction false} RunsAreFaithful(mac: Mac, requests: seq<Request>)
    ensures After(mac, requests).Some? ==> Faithful(mac, After(mac, requests).value)
  {
    if requests != [] && After(mac, requests).Some? {
      var n := |requests| - 1;
      RunsAreFaithful(mac, requests[..n]);
      ServeKeepsFaith(mac, After(mac, requests[..n]).value, requests[n]);
    }
  }

  /**
    Session affinity over any run. Whatever replicas served the client before, its
    next request for a tenant goes to the pod that last answered it, on every kind of
    replica, whenever that replica lists the pod as ready; only otherwise may it be
    picked anew. Only an answer changes the client, and afterwards it names that pod.
   */
  lemma SessionAffinity(mac: Mac, requests: seq<Request>, r: Request, id: string)
    requires After(mac, requests).Some? && Plausible(After(mac, requests).value, r) && TenantOf(r) == Some(id)
    ensures var c := After(mac, requests).value; var c' := Serve(mac, c, r);
            && (r.ready != [] ==>
                  Target(mac, r, id) == if id in c.last && c.last[id] in r.ready then c.last[id] else r.ready[r.pick])
            && (r.ready == [] || !r.upstream.Reached? ==> c' == c)
            && (r.ready != [] && r.upstream.Reached? ==>
                  && c'.last == c.last[id := Target(mac, r, id)]
                  && Slot("affinity_t" + id, "/t/" + id) in c'.jar
                  && c'.jar[Slot("affinity_t" + id, "/t/" + id)] == Sign(mac, Target(mac, r, id)))
            && (forall s | s != SlotFor(id) :: (s in c'.jar <==> s in c.jar) && (s in c.jar ==> c'.jar[s] == c.jar[s]))
  {
    hide Faithful, Sticky, Sign, SlotFor, AllClean, HeldAs, ParsePath;
    var c := After(mac, requests).value;
    RunsAreFaithful(mac, requests);
    StickyIsLast(mac, c, r, id);
    SlotText(id);
    if r.ready != [] && r.upstream.Reached? { AnswerIsStored(mac, c, r, id); }
  }

  lemma SlotText(id: string)
    ensures SlotFor(id) == Slot("affinity_t" + id, "/t/" + id)
  {}
}
