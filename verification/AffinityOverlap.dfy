/**
  A client that does not wait for an answer before it sends the next request. Which pod
  a request goes to is decided when it is sent; the jar changes when an answer arrives.
 */
module AffinityOverlap {
  import opened Options
  import opened Cookie
  import opened CookieHeader
  import opened Routing
  import opened AffinityRun

  /** A request under way; `rebound` is the last pod that an answer bound its tenant to since it was sent. */
  datatype Pending = Pending(id: string, pod: string, sets: bool, rebound: Option<string>)

  /** `client.last` is the pod the client is bound to; `answered` the last request answered, for each tenant. */
  datatype Browser = Browser(client: Client, pending: map<nat, Pending>, answered: map<string, Pending>)

  const NEW_BROWSER := Browser(NEW_CLIENT, map[], map[])

  datatype Step = Send(k: nat, request: Request) | Answer(k: nat, reached: bool)

  function Rebind(pending: map<nat, Pending>, id: string, pod: string): map<nat, Pending> {
    map k | k in pending :: if pending[k].id == id then pending[k].(rebound := Some(pod)) else pending[k]
  }

  /** What an answer to p does; only a pod the client was not bound to sets a cookie. */
  function Stored(mac: Mac, b: Browser, p: Pending): Browser {
    if !p.sets then b.(answered := b.answered[p.id := p])
    else Browser(Client(b.client.jar[SlotFor(p.id) := Sign(mac, p.pod)], b.client.last[p.id := p.pod]),
                 Rebind(b.pending, p.id, p.pod), b.answered[p.id := p])
  }

  ghost function Move(mac: Mac, b: Browser, step: Step): Browser {
    match step
    case Send(k, r) =>
      if k !in b.pending && Plausible(b.client, r) && TenantOf(r).Some? && r.ready != [] then
        var id := TenantOf(r).value;
        b.(pending := b.pending[k := Pending(id, Target(mac, r, id), Sticky(mac, r, id).None?, None)])
      else b
    case Answer(k, reached) =>
      if k !in b.pending then b
      else
        var b1 := b.(pending := b.pending - {k});
        if reached then Stored(mac, b1, b.pending[k]) else b1
  }

  ghost function RunBrowser(mac: Mac, steps: seq<Step>): Browser {
    if steps == [] then NEW_BROWSER else Move(mac, RunBrowser(mac, steps[..|steps| - 1]), steps[|steps| - 1])
  }

  // ----- Invariant -----

  /** Nothing that arrived while p was under way bound the client to another pod than p's. */
  predicate Undisturbed(p: Pending) {
    p.sets || p.rebound == None || p.rebound == Some(p.pod)
  }

  ghost predicate PendingOk(c: Client, p: Pending) {
    && IsId(p.id) && IsAddress(p.pod)
    && (p.rebound.Some? ==> p.id in c.last && c.last[p.id] == p.rebound.value)
    && (!p.sets && p.rebound.None? ==> p.id in c.last && c.last[p.id] == p.pod)
  }

  ghost predicate AnsweredOk(c: Client, id: string, p: Pending) {
    p.id == id && id in c.last && (c.last[id] == p.pod <==> Undisturbed(p))
  }

  ghost predicate Sound(mac: Mac, b: Browser) {
    && Faithful(mac, b.client)
    && (forall k | k in b.pending :: PendingOk(b.client, b.pending[k]))
    && (forall id | id in b.answered :: AnsweredOk(b.client, id, b.answered[id]))
  }

  lemma SendSound(mac: Mac, b: Browser, k: nat, r: Request)
    requires Sound(mac, b)
    ensures Sound(mac, Move(mac, b, Send(k, r)))
  {
    hide Faithful, Sticky, TenantOf, Target, IsId, IsAddress, HeldAs, Plain;
    if k !in b.pending && Plausible(b.client, r) && TenantOf(r).Some? && r.ready != [] {
      var id := TenantOf(r).value;
      SentOk(mac, b.client, r, id);
    }
  }

  lemma SentOk(mac: Mac, c: Client, r: Request, id: string)
    requires Faithful(mac, c) && Plausible(c, r) && TenantOf(r) == Some(id) && r.ready != []
    ensures PendingOk(c, Pending(id, Target(mac, r, id), Sticky(mac, r, id).None?, None))
  {
    hide Faithful, Sticky, HeldAs, IsAddress, Plain, IsId;
    TenantOfPath(r, id);
    StickyIsLast(mac, c, r, id);
    assert Target(mac, r, id) in r.ready;
  }

  lemma AnswerSound(mac: Mac, b: Browser, k: nat, reached: bool)
    requires Sound(mac, b)
    ensures Sound(mac, Move(mac, b, Answer(k, reached)))
  {
    hide Faithful, IsId, IsAddress, Sign, SlotFor;
    if k in b.pending {
      var p := b.pending[k];
      if reached && p.sets { StoredIsFaithful(mac, b.client, p.id, p.pod); }
    }
  }

  lemma {:induction false} RunSound(mac: Mac, steps: seq<Step>)
    ensures Sound(mac, RunBrowser(mac, steps))
  {
    if steps != [] {
      var n := |steps| - 1;
      RunSound(mac, steps[..n]);
      var b := RunBrowser(mac, steps[..n]);
      match steps[n]
      case Send(k, r) => SendSound(mac, b, k, r);
      case Answer(k, reached) => AnswerSound(mac, b, k, reached);
    }
  }

  // ----- Results -----

  /**
    In any interleaving of requests and answers the jar names the pod of the last answered
    request if and only if that request set a cookie, or no answer that arrived while it
    was under way left the tenant bound to another pod.
   */
  lemma JarNamesLastAnswered(mac: Mac, steps: seq<Step>, id: string)
    requires id in RunBrowser(mac, steps).answered
    ensures var b := RunBrowser(mac, steps);
            && SlotFor(id) in b.client.jar
            && (b.client.jar[SlotFor(id)] == Sign(mac, b.answered[id].pod) <==> Undisturbed(b.answered[id]))
  {
    RunSound(mac, steps);
    var b := RunBrowser(mac, steps);
    SignInjective(mac, b.client.last[id], b.answered[id].pod);
  }

  /**
    However requests overlap, a new one goes to the pod the jar names whenever the replica
    that takes it lists that pod.
   */
  lemma NextGoesToBound(mac: Mac, steps: seq<Step>, r: Request, id: string)
    requires Plausible(RunBrowser(mac, steps).client, r) && TenantOf(r) == Some(id) && r.ready != []
    ensures var c := RunBrowser(mac, steps).client;
            && (id in c.last && c.last[id] in r.ready ==> Target(mac, r, id) == c.last[id])
            && (id in c.last ==> SlotFor(id) in c.jar && c.jar[SlotFor(id)] == Sign(mac, c.last[id]))
  {
    hide Sticky, HeldAs, Plain;
    RunSound(mac, steps);
    StickyIsLast(mac, RunBrowser(mac, steps).client, r, id);
  }

  /** Two requests are sent together, and the second is answered first. */
  ghost function Crossed(mac: Mac, b: Browser, one: Request, two: Request, k: nat, l: nat): Browser {
    Move(mac, Move(mac, Move(mac, Move(mac, b, Send(k, one)), Send(l, two)), Answer(l, true)), Answer(k, true))
  }

  lemma SendIs(mac: Mac, b: Browser, k: nat, r: Request, id: string)
    requires Sound(mac, b) && k !in b.pending && Plausible(b.client, r) && TenantOf(r) == Some(id) && r.ready != []
    requires id in b.client.last
    ensures var pod := b.client.last[id]; var p := Pending(id, Target(mac, r, id), pod !in r.ready, None);
            && Move(mac, b, Send(k, r)) == b.(pending := b.pending[k := p])
            && (pod in r.ready ==> p.pod == pod) && p.pod in r.ready
  {
    hide Faithful, Sticky, HeldAs, Plain;
    StickyIsLast(mac, b.client, r, id);
  }

  /**
    The other case can happen to every bound client: of two requests sent together, one
    taken by a replica that does not list the pod is answered first, and the jar then
    names another pod than the one answered last.
   */
  lemma OverlapCanMislead(mac: Mac, b: Browser, one: Request, two: Request, id: string, k: nat, l: nat)
    requires Sound(mac, b) && k !in b.pending && l !in b.pending && k != l
    requires Plausible(b.client, one) && Plausible(b.client, two) && TenantOf(one) == TenantOf(two) == Some(id)
    requires id in b.client.last && b.client.last[id] in one.ready && two.ready != [] && b.client.last[id] !in two.ready
    ensures var b' := Crossed(mac, b, one, two, k, l); var pod := b.client.last[id];
            && id in b'.answered && b'.answered[id].pod == pod
            && SlotFor(id) in b'.client.jar && b'.client.jar[SlotFor(id)] != Sign(mac, pod)
  {
    hide Faithful, Sticky, TenantOf, Sign, SlotFor, Sound, Target, HeldAs, Plain;
    var pod, other := b.client.last[id], Target(mac, two, id);
    SendIs(mac, b, k, one, id);
    var b1 := Move(mac, b, Send(k, one));
    SendSound(mac, b, k, one);
    SendIs(mac, b1, l, two, id);
    var b2 := Move(mac, b1, Send(l, two));
    assert b2.pending[l] == Pending(id, other, true, None) && b2.pending[k] == Pending(id, pod, false, None);
    var b3 := Move(mac, b2, Answer(l, true));
    assert b3.client.jar[SlotFor(id)] == Sign(mac, other) && b3.pending[k] == Pending(id, pod, false, Some(other));
    SignInjective(mac, other, pod);
  }

  // ----- Such a run -----

  /** A request for /t/3 with the given cookies, taken by a Go replica that lists one pod. */
  function Example(sent: seq<(string, string)>, pod: string): Request {
    Request(PREFIX + "3", sent, Go, [pod], 0, Reached)
  }

  function Bound(mac: Mac, pod: string): Client {
    Client(map[SlotFor("3") := Sign(mac, pod)], map["3" := pod])
  }

  lemma ExampleIsRouted(sent: seq<(string, string)>, pod: string)
    ensures var r := Example(sent, pod);
            Plain(r.target) && TenantOf(r) == Some("3") && PathOf(r.target) == CookiePath("3")
  {
    hide Plain, ParsePath;
    assert IsId("3");
    TenantRootIsPlain("3");
    PlainIsOneLine(PREFIX + "3");
  }

  lemma FirstIsPlausible(pod: string)
    requires IsAddress(pod)
    ensures Plausible(NEW_CLIENT, Example([], pod))
  {
    ExampleIsRouted([], pod);
  }

  lemma NextIsPlausible(mac: Mac, held: string, pod: string)
    requires IsAddress(held) && IsAddress(pod)
    ensures Plausible(Bound(mac, held), Example([(CookieName("3"), Sign(mac, held))], pod))
  {
    hide Sign, Plain, Clean, IsAddress;
    var c, sent := Bound(mac, held), [(CookieName("3"), Sign(mac, held))];
    var r := Example(sent, pod);
    assert IsId("3");
    ExampleIsRouted(sent, pod);
    AffinityCookieIsClean(mac, "3", held);
    assert SlotFor("3") in c.jar && PathMatch(PathOf(r.target), SlotFor("3").path);
    assert HeldAs(c, r, sent[0]);
  }

  lemma RunExtends(mac: Mac, steps: seq<Step>, step: Step)
    ensures RunBrowser(mac, steps + [step]) == Move(mac, RunBrowser(mac, steps), step)
  {
    var all := steps + [step];
    assert all[..|all| - 1] == steps && all[|all| - 1] == step;
  }

  /** A new client that was answered once. */
  lemma AnsweredOnce(mac: Mac, pod: string)
    requires IsAddress(pod)
    ensures var b := Move(mac, Move(mac, NEW_BROWSER, Send(0, Example([], pod))), Answer(0, true));
            b.client == Bound(mac, pod) && b.pending == map[]
  {
    hide Sign, Plausible, TenantOf, IsAddress, SlotFor;
    var r := Example([], pod);
    FirstIsPlausible(pod);
    ExampleIsRouted([], pod);
    RunSound(mac, []);
    StickyIsLast(mac, NEW_CLIENT, r, "3");
    var b1 := Move(mac, NEW_BROWSER, Send(0, r));
    assert b1.pending == map[0 := Pending("3", pod, true, None)];
    assert b1.pending - {0} == map[];
    assert Rebind(map[], "3", pod) == map[];
  }

  /** Six steps from a new client after which the jar names pod 2 and the last answer came from pod 1. */
  lemma OverlapHappens(mac: Mac) returns (steps: seq<Step>)
    ensures var b := RunBrowser(mac, steps);
            && "3" in b.answered && b.answered["3"].pod == "1"
            && SlotFor("3") in b.client.jar && b.client.jar[SlotFor("3")] != Sign(mac, "1")
  {
    hide Sign, Plausible, TenantOf, SlotFor, Move, RunBrowser, Sound;
    assert IsAddress("1") && IsAddress("2");
    var sent := [(CookieName("3"), Sign(mac, "1"))];
    var first, one, two := Example([], "1"), Example(sent, "1"), Example(sent, "2");
    var begin := [Send(0, first)] + [Answer(0, true)];
    var b := Move(mac, Move(mac, NEW_BROWSER, Send(0, first)), Answer(0, true));
    assert RunBrowser(mac, begin) == b by {
      assert [] + [Send(0, first)] == [Send(0, first)];
      assert RunBrowser(mac, []) == NEW_BROWSER by { RunBegins(mac); }
      RunExtends(mac, [], Send(0, first));
      RunExtends(mac, [Send(0, first)], Answer(0, true));
    }
    RunSound(mac, begin);
    AnsweredOnce(mac, "1");
    NextIsPlausible(mac, "1", "1");
    NextIsPlausible(mac, "1", "2");
    ExampleIsRouted(sent, "1");
    ExampleIsRouted(sent, "2");
    OverlapCanMislead(mac, b, one, two, "3", 1, 2);
    steps := begin + [Send(1, one)] + [Send(2, two)] + [Answer(2, true)] + [Answer(1, true)];
    RunExtends(mac, begin, Send(1, one));
    RunExtends(mac, begin + [Send(1, one)], Send(2, two));
    RunExtends(mac, begin + [Send(1, one)] + [Send(2, two)], Answer(2, true));
    RunExtends(mac, begin + [Send(1, one)] + [Send(2, two)] + [Answer(2, true)], Answer(1, true));
  }

  lemma RunBegins(mac: Mac)
    ensures RunBrowser(mac, []) == NEW_BROWSER
  {}
}
