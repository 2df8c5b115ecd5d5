/** Request accounting of the Go proxy: the status writer and the counters (proxy/handler.go, proxy/metrics.go). */
module StatusWriting {
  import opened Options

  datatype Call = WriteHeader(code: int) | Write | Flush

  /** 1xx codes other than 101 do not end the header (section 15.2 of RFC 9110). */
  predicate Informational(code: int) {
    100 <= code <= 199 && code != 101
  }

  /** The writer of net/http: the first final header, write or flush settles the status. */
  class ResponseWriter {
    var committed: Option<int>

    constructor ()
      ensures committed == None
    {
      committed := None;
    }

    method DoWriteHeader(code: int)
      modifies this
      ensures committed == if old(committed).None? && !Informational(code) then Some(code) else old(committed)
    {
      if committed.None? && !Informational(code) {
        committed := Some(code);
      }
    }

    method DoWrite()
      modifies this
      ensures committed == if old(committed).None? then Some(200) else old(committed)
    {
      if committed.None? {
        committed := Some(200);
      }
    }
  }

  /** What statusWriter records after the given calls, most recent last. */
  function Recorded(calls: seq<Call>): Option<int> {
    if calls == [] then None
    else
      var before := Recorded(calls[..|calls| - 1]);
      if before.Some? then before
      else match calls[|calls| - 1]
        case WriteHeader(c) => Some(c)
        case Write => Some(200)
        case Flush => None
  }

  /** What the wrapped writer commits. */
  function Committed(calls: seq<Call>): Option<int> {
    if calls == [] then None
    else
      var before := Committed(calls[..|calls| - 1]);
      if before.Some? then before
      else match calls[|calls| - 1]
        case WriteHeader(c) => if Informational(c) then None else Some(c)
        case Write => Some(200)
        case Flush => Some(200)
  }

  /** Without any call the response goes out with 200. */
  function OrOk(status: Option<int>): int {
    if status.Some? then status.value else 200
  }

  class StatusWriter {
    const inner: ResponseWriter
    var status: int
    var wroteHeader: bool
    ghost var calls: seq<Call>

    ghost predicate Valid()
      reads this, inner
    {
      && status == OrOk(Recorded(calls)) && (wroteHeader <==> Recorded(calls).Some?)
      && inner.committed == Committed(calls)
    }

    constructor (w: ResponseWriter)
      requires w.committed == None
      ensures Valid() && calls == [] && inner == w
    {
      inner := w;
      status, wroteHeader := 200, false;
      calls := [];
    }

    method DoWriteHeader(code: int)
      requires Valid()
      modifies this, inner
      ensures Valid() && calls == old(calls) + [WriteHeader(code)]
    {
      if !wroteHeader {
        status := code;
        wroteHeader := true;
      }
      inner.DoWriteHeader(code);
      calls := calls + [WriteHeader(code)];
      assert calls[..|calls| - 1] == old(calls);
    }

    method DoWrite()
      requires Valid()
      modifies this, inner
      ensures Valid() && calls == old(calls) + [Write]
    {
      wroteHeader := true;
      inner.DoWrite();
      calls := calls + [Write];
      assert calls[..|calls| - 1] == old(calls);
    }

    /** Flush goes to the wrapped writer only. */
    method DoFlush()
      requires Valid()
      modifies this, inner
      ensures Valid() && calls == old(calls) + [Flush]
    {
      inner.DoWrite();
      calls := calls + [Flush];
      assert calls[..|calls| - 1] == old(calls);
    }
  }

  /** The code of the first call that is not a flush; a plain write stands for 200. */
  function FirstCode(calls: seq<Call>): Option<int> {
    if calls == [] then None
    else match calls[0]
      case WriteHeader(c) => Some(c)
      case Write => Some(200)
      case Flush => FirstCode(calls[1..])
  }

  lemma {:induction false} RecordedIsFirst(calls: seq<Call>)
    ensures Recorded(calls) == FirstCode(calls)
  {
    if calls != [] {
      var n := |calls| - 1;
      RecordedIsFirst(calls[..n]);
      FirstCodeAppend(calls[..n], calls[n]);
      assert calls == calls[..n] + [calls[n]];
    }
  }

  lemma {:induction false} FirstCodeAppend(calls: seq<Call>, call: Call)
    ensures FirstCode(calls + [call]) == if FirstCode(calls).Some? then FirstCode(calls) else FirstCode([call])
  {
    if calls == [] {
      assert calls + [call] == [call];
    } else {
      assert (calls + [call])[1..] == calls[1..] + [call];
      FirstCodeAppend(calls[1..], call);
    }
  }

  /** What is committed is never informational; with a final first call it is that call's code. */
  lemma {:induction false} CommittedIsFinal(calls: seq<Call>)
    ensures Committed(calls).Some? ==> !Informational(Committed(calls).value)
    ensures calls != [] && !(calls[0].WriteHeader? && Informational(calls[0].code)) ==>
              Committed(calls) == Some(match calls[0] case WriteHeader(c) => c case _ => 200)
  {
    if calls != [] {
      var n := |calls| - 1;
      CommittedIsFinal(calls[..n]);
    }
  }

  /**
    The metric records the status that was sent if and only if the first header is
    not informational and nothing was flushed before a header other than 200.
   */
  lemma RecordedIsSent(calls: seq<Call>)
    ensures OrOk(Recorded(calls)) == OrOk(Committed(calls))
       <==> var code := OrOk(FirstCode(calls));
            !(100 <= code <= 199 && code != 101) && (calls != [] && calls[0].Flush? ==> code == 200)
  {
    RecordedIsFirst(calls);
    CommittedIsFinal(calls);
  }

  /** Early hints and an early flush both make the metric wrong. */
  lemma RecordedCanBeWrong()
    ensures Recorded([WriteHeader(103), WriteHeader(200)]) == Some(103)
    ensures Committed([WriteHeader(103), WriteHeader(200)]) == Some(200)
    ensures Recorded([Flush, WriteHeader(404)]) == Some(404) && Committed([Flush, WriteHeader(404)]) == Some(200)
  {
    RecordedIsFirst([WriteHeader(103), WriteHeader(200)]);
    RecordedIsFirst([Flush, WriteHeader(404)]);
    assert [Flush, WriteHeader(404)][1..] == [WriteHeader(404)];
    assert [WriteHeader(103), WriteHeader(200)][..1] == [WriteHeader(103)] && [WriteHeader(103)][..0] == [];
    CommittedIsFinal([Flush, WriteHeader(404)]);
  }
}

/** The counters of the Go proxy with any number of requests in flight. */
module Accounting {
  import opened Text
  import opened Affinity
  import opened Routing
  import opened Cookie
  import opened Options

  const NO_TENANT := "none"

  datatype Series = Series(tenant: string, status: int)

  /** Received; refused with 404 or 503; labelled with a tenant that has ready pods; past `choose`. */
  datatype Flight = Received | Refused(status: int) | Labelled(id: string, ready: seq<string>) | Routed(id: string)

  /** `arrived` and `served` (the ids seen with a ready pod) are only there to state what the counters mean. */
  datatype Proxy = Proxy(
    flights: map<nat, Flight>, requests: map<Series, nat>, events: map<Event, nat>,
    arrived: nat, served: set<string>)

  const IDLE := Proxy(map[], map[], map[], 0, {})

  /** Each request takes its own steps; those of different requests interleave freely. */
  datatype Step =
    | Arrive(request: nat)
    | Route(request: nat, path: string, ready: seq<string>)
    | Pick(request: nat, cookie: Option<string>)
    | Finish(request: nat, status: int)

  function Count<K>(m: map<K, nat>, k: K): nat {
    if k in m then m[k] else 0
  }

  function Inc<K>(m: map<K, nat>, k: K): map<K, nat> {
    m[k := Count(m, k) + 1]
  }

  function LabelOf(f: Flight): string {
    if f.Routed? || f.Labelled? then f.id else NO_TENANT
  }

  /** The series a finished request is counted in; `status` is what the pod's answer or a 502 recorded. */
  function SeriesOf(f: Flight, status: int): Series {
    Series(LabelOf(f), if f.Refused? then f.status else status)
  }

  /** Where the path and the ready list send a request. */
  function Destination(path: string, ready: seq<string>): Flight {
    match GoMatch(path)
    case None => Refused(404)
    case Some(m) => if ready == [] then Refused(503) else Labelled(m.id, ready)
  }

  function Move(mac: Mac, p: Proxy, step: Step): Proxy {
    match step
    case Arrive(r) =>
      if r in p.flights then p else p.(flights := p.flights[r := Received], arrived := p.arrived + 1)
    case Route(r, path, ready) =>
      if r in p.flights && p.flights[r].Received? then
        var f := Destination(path, ready);
        p.(flights := p.flights[r := f], served := if f.Labelled? then p.served + {f.id} else p.served)
      else p
    case Pick(r, cookie) =>
      if r in p.flights && p.flights[r].Labelled? then
        var f := p.flights[r];
        p.(flights := p.flights[r := Routed(f.id)], events := Inc(p.events, EventOf(mac, cookie, f.ready)))
      else p
    case Finish(r, status) =>
      if r in p.flights && (p.flights[r].Refused? || p.flights[r].Routed?) then
        p.(flights := p.flights - {r}, requests := Inc(p.requests, SeriesOf(p.flights[r], status)))
      else p
  }

  function RunProxy(mac: Mac, steps: seq<Step>): Proxy {
    if steps == [] then IDLE else Move(mac, RunProxy(mac, steps[..|steps| - 1]), steps[|steps| - 1])
  }

  // ----- Totals -----

  ghost function Total<K>(m: map<K, nat>): nat
    decreases |m|
  {
    if m == map[] then 0
    else
      var k :| k in m;
      m[k] + Total(m - {k})
  }

  lemma {:induction false} TotalWithout<K>(m: map<K, nat>, k: K)
    requires k in m
    ensures Total(m) == m[k] + Total(m - {k})
    decreases |m|
  {
    var j :| j in m && Total(m) == m[j] + Total(m - {j});
    if j != k {
      TotalWithout(m - {j}, k);
      TotalWithout(m - {k}, j);
      assert m - {j} - {k} == m - {k} - {j};
    }
  }

  lemma TotalInc<K>(m: map<K, nat>, k: K)
    ensures Total(Inc(m, k)) == Total(m) + 1
  {
    TotalWithout(Inc(m, k), k);
    assert Inc(m, k) - {k} == m - {k};
    if k in m { TotalWithout(m, k); } else { assert m - {k} == m; }
  }

  ghost function WithTenant(m: map<Series, nat>): map<Series, nat> {
    map k | k in m && k.tenant != NO_TENANT :: m[k]
  }

  lemma WithTenantInc(m: map<Series, nat>, k: Series)
    ensures WithTenant(Inc(m, k)) == if k.tenant != NO_TENANT then Inc(WithTenant(m), k) else WithTenant(m)
  {}

  ghost function InRouted(p: Proxy): set<nat> {
    set r | r in p.flights && p.flights[r].Routed?
  }

  // ----- Conservation -----

  ghost predicate EventsBalance(p: Proxy) {
    Total(p.events) == Total(WithTenant(p.requests)) + |InRouted(p)|
  }

  ghost predicate LabelsOk(p: Proxy) {
    && (forall r | r in p.flights && (p.flights[r].Labelled? || p.flights[r].Routed?) ::
          IsId(p.flights[r].id) && p.flights[r].id in p.served)
    && (forall s | s in p.requests :: s.tenant == NO_TENANT || s.tenant in p.served)
  }

  ghost predicate Balanced(p: Proxy) {
    EventsBalance(p) && LabelsOk(p) && p.arrived == Total(p.requests) + |p.flights|
  }

  lemma NoIdIsNone(id: string)
    requires IsId(id)
    ensures id != NO_TENANT
  {
    assert !IsDigit(NO_TENANT[0]);
  }

  lemma MoveKeepsBalance(mac: Mac, p: Proxy, step: Step)
    requires Balanced(p)
    ensures Balanced(Move(mac, p, step))
  {
    hide Balanced, EventOf, Destination;
    if Move(mac, p, step) != p {
      match step
      case Arrive(r) => ArriveKeepsBalance(mac, p, r);
      case Route(r, path, ready) => RouteKeepsBalance(mac, p, r, path, ready);
      case Pick(r, cookie) => PickKeepsBalance(p, r, EventOf(mac, cookie, p.flights[r].ready));
      case Finish(r, status) => FinishKeepsBalance(mac, p, r, status);
    }
  }

  lemma ArriveKeepsBalance(mac: Mac, p: Proxy, r: nat)
    requires Balanced(p) && r !in p.flights
    ensures Balanced(Move(mac, p, Arrive(r)))
  {
    hide Total, WithTenant, IsId, EventOf, Destination;
    assert InRouted(Move(mac, p, Arrive(r))) == InRouted(p);
  }

  lemma RouteKeepsBalance(mac: Mac, p: Proxy, r: nat, path: string, ready: seq<string>)
    requires Balanced(p) && r in p.flights && p.flights[r].Received?
    ensures Balanced(Move(mac, p, Route(r, path, ready)))
  {
    hide Total, WithTenant, IsId, EventOf, ParsePath;
    var p' := Move(mac, p, Route(r, path, ready));
    if ParsePath(path).Some? { ParseIsDenotation(path, ParsePath(path).value); }
    assert InRouted(p') == InRouted(p);
    SameSize(p.flights, p'.flights);
  }

  lemma SameSize(m: map<nat, Flight>, m': map<nat, Flight>)
    requires m.Keys == m'.Keys
    ensures |m| == |m'|
  {
    assert |m| == |m.Keys| && |m'| == |m'.Keys|;
  }

  lemma PickKeepsBalance(p: Proxy, r: nat, event: Event)
    requires Balanced(p) && r in p.flights && p.flights[r].Labelled?
    ensures Balanced(p.(flights := p.flights[r := Routed(p.flights[r].id)], events := Inc(p.events, event)))
  {
    hide Total, WithTenant, IsId;
    var p' := p.(flights := p.flights[r := Routed(p.flights[r].id)], events := Inc(p.events, event));
    TotalInc(p.events, event);
    assert InRouted(p') == InRouted(p) + {r} && r !in InRouted(p);
    SameSize(p.flights, p'.flights);
  }

  lemma FinishKeepsBalance(mac: Mac, p: Proxy, r: nat, status: int)
    requires Balanced(p) && r in p.flights && (p.flights[r].Refused? || p.flights[r].Routed?)
    ensures Balanced(Move(mac, p, Finish(r, status)))
  {
    hide Total, EventsBalance, IsId;
    FinishKeepsEvents(mac, p, r, status);
    TotalInc(p.requests, SeriesOf(p.flights[r], status));
    SizeWithout(p.flights, r);
  }

  lemma FinishKeepsEvents(mac: Mac, p: Proxy, r: nat, status: int)
    requires EventsBalance(p) && LabelsOk(p) && r in p.flights && (p.flights[r].Refused? || p.flights[r].Routed?)
    ensures EventsBalance(Move(mac, p, Finish(r, status)))
  {
    hide Total, WithTenant, IsId;
    var f, series := p.flights[r], SeriesOf(p.flights[r], status);
    WithTenantInc(p.requests, series);
    RoutedWithout(p, r, Move(mac, p, Finish(r, status)));
    if f.Routed? {
      NoIdIsNone(f.id);
      TotalInc(WithTenant(p.requests), series);
    }
  }

  lemma RoutedWithout(p: Proxy, r: nat, p': Proxy)
    requires r in p.flights && p'.flights == p.flights - {r}
    ensures |InRouted(p')| == |InRouted(p)| - if p.flights[r].Routed? then 1 else 0
  {
    assert InRouted(p') == InRouted(p) - {r};
    assert r in InRouted(p) <==> p.flights[r].Routed?;
  }

  lemma SizeWithout(m: map<nat, Flight>, r: nat)
    requires r in m
    ensures |m - {r}| == |m| - 1
  {
    assert (m - {r}).Keys == m.Keys - {r};
    assert |m| == |m.Keys| && |m - {r}| == |(m - {r}).Keys|;
  }

  /**
    At every moment of every run: each cookie event belongs to a request counted under
    a tenant or still on its way to a pod; each request that arrived is counted once or
    still in flight; and a tenant label only ever names a tenant that had ready pods.
   */
  lemma {:induction false} CountersBalance(mac: Mac, steps: seq<Step>)
    ensures Balanced(RunProxy(mac, steps))
  {
    if steps == [] {
      assert WithTenant(map[]) == map[] && InRouted(IDLE) == {};
    } else {
      CountersBalance(mac, steps[..|steps| - 1]);
      MoveKeepsBalance(mac, RunProxy(mac, steps[..|steps| - 1]), steps[|steps| - 1]);
    }
  }

  // ----- One request through the handler -----

  /** A request that nobody interleaves with. */
  function Alone(r: nat, path: string, cookie: Option<string>, ready: seq<string>, status: int): seq<Step> {
    [Arrive(r), Route(r, path, ready), Pick(r, cookie), Finish(r, status)]
  }

  function MoveAll(mac: Mac, p: Proxy, steps: seq<Step>): Proxy
    decreases |steps|
  {
    if steps == [] then p else MoveAll(mac, Move(mac, p, steps[0]), steps[1..])
  }

  lemma AloneUnfolds(mac: Mac, p: Proxy, r: nat, path: string, cookie: Option<string>, ready: seq<string>, status: int)
    ensures MoveAll(mac, p, Alone(r, path, cookie, ready, status))
         == Move(mac, Move(mac, Move(mac, Move(mac, p, Arrive(r)), Route(r, path, ready)), Pick(r, cookie)),
                 Finish(r, status))
  {
    hide Move;
    var p1 := Move(mac, p, Arrive(r));
    var p2 := Move(mac, p1, Route(r, path, ready));
    var p3 := Move(mac, p2, Pick(r, cookie));
    MoveFirst(mac, p3, Finish(r, status), []);
    MoveFirst(mac, p2, Pick(r, cookie), [Finish(r, status)]);
    MoveFirst(mac, p1, Route(r, path, ready), [Pick(r, cookie)] + [Finish(r, status)]);
    MoveFirst(mac, p, Arrive(r), [Route(r, path, ready)] + ([Pick(r, cookie)] + [Finish(r, status)]));
    assert [Finish(r, status)] + [] == [Finish(r, status)];
    assert Alone(r, path, cookie, ready, status)
        == [Arrive(r)] + ([Route(r, path, ready)] + ([Pick(r, cookie)] + [Finish(r, status)]));
  }

  lemma MoveFirst(mac: Mac, p: Proxy, step: Step, rest: seq<Step>)
    ensures MoveAll(mac, p, [step] + rest) == MoveAll(mac, Move(mac, p, step), rest)
  {
    assert ([step] + rest)[1..] == rest;
  }

  function Counters(requests: map<Series, nat>, events: map<Event, nat>): Proxy {
    Proxy(map[], requests, events, 0, {})
  }

  lemma AloneCounts(mac: Mac, p: Proxy, path: string, cookie: Option<string>, ready: seq<string>, status: int)
    requires p.flights == map[]
    ensures var f := Destination(path, ready); var q := MoveAll(mac, p, Alone(0, path, cookie, ready, status));
            && q.requests == Inc(p.requests, SeriesOf(f, status)) && q.flights == map[]
            && q.events == if f.Labelled? then Inc(p.events, EventOf(mac, cookie, ready)) else p.events
  {
    hide EventOf, GoMatch, MoveAll, Inc;
    AloneUnfolds(mac, p, 0, path, cookie, ready, status);
    var f := Destination(path, ready);
    var p1 := Move(mac, p, Arrive(0));
    var p2 := Move(mac, p1, Route(0, path, ready));
    assert p2.flights == map[0 := f];
    var p3 := Move(mac, p2, Pick(0, cookie));
    assert p3.flights == map[0 := if f.Labelled? then Routed(f.id) else f];
    assert map[0 := if f.Labelled? then Routed(f.id) else f] - {0} == map[];
  }

  lemma IncCounts<K>(m: map<K, nat>, k: K)
    ensures forall j :: Count(Inc(m, k), j) == Count(m, j) + if j == k then 1 else 0
  {}

  class Handler {
    const mac: Mac
    var requests: map<Series, nat>
    var events: map<Event, nat>
    var upstreamErrors: nat

    constructor (mac: Mac)
      ensures this.mac == mac && requests == map[] && events == map[] && upstreamErrors == 0
    {
      this.mac := mac;
      requests, events, upstreamErrors := map[], map[], 0;
    }

    /**
      ServeHTTP; `answer` is the status the pod answers with, if it can be reached, and a
      cookie is set exactly on the answers of a pod the client was not already bound to.
     */
    method ServeHTTP(path: string, cookie: Option<string>, ready: seq<string>, pick: nat, answer: Option<int>)
      returns (status: int, pod: Option<string>, setCookie: Option<string>)
      requires ready != [] ==> pick < |ready|
      modifies this
      ensures var q := MoveAll(mac, Counters(old(requests), old(events)), Alone(0, path, cookie, ready, status));
              requests == q.requests && events == q.events
      ensures pod.Some? <==> GoMatch(path).Some? && ready != []
      ensures pod.Some? ==> pod.value in ready && status == if answer.Some? then answer.value else 502
      ensures pod.None? ==> status == if GoMatch(path).None? then 404 else 503
      ensures setCookie.Some? <==> pod.Some? && answer.Some? && StickyPod(mac, cookie, ready).None?
      ensures setCookie.Some? ==> setCookie == Some(Sign(mac, pod.value))
      ensures StickyPod(mac, cookie, ready).Some? && pod.Some? ==> pod == StickyPod(mac, cookie, ready)
      ensures forall e ::
                Count(events, e)
                == Count(old(events), e) + if pod.Some? && Happened(mac, cookie, ready, e) then 1 else 0
      ensures var tenant := if pod.Some? then GoMatch(path).value.id else "none";
              forall s :: Count(requests, s) == Count(old(requests), s) + if s == Series(tenant, status) then 1 else 0
      ensures upstreamErrors == old(upstreamErrors) + if pod.Some? && answer.None? then 1 else 0
    {
      hide Move, MoveAll, Inc, GoMatch, Count, Happened, StickyPod;
      var tenant := NO_TENANT;
      pod, setCookie := None, None;
      var m := GoMatch(path);
      if m.None? {
        status := 404;
      } else if ready == [] {
        status := 503;
      } else {
        tenant := m.value.id;
        var target, event := Choose(mac, cookie, ready, pick);
        EventMeans(mac, cookie, ready);
        IncCounts(events, event);
        pod := Some(target);
        events := Inc(events, event);
        if answer.Some? {
          status := answer.value;
          if event != StickyHit { setCookie := Some(Sign(mac, target)); }
        } else {
          upstreamErrors := upstreamErrors + 1;
          status := 502;
        }
      }
      IncCounts(requests, Series(tenant, status));
      requests := Inc(requests, Series(tenant, status));
      AloneCounts(mac, Counters(old(requests), old(events)), path, cookie, ready, status);
    }
  }
}
