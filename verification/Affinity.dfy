/**
  How each proxy picks a pod (proxy/handler.go:101-121, k8s/proxy/sticky-proxy.js:100-111).
 */
module Affinity {
  import opened Options
  import opened Text
  import opened Cookie

  // ----- Picking a pod -----

  datatype Event = StickyHit | NewAssignment | CookieRejected

  method Contains(list: seq<string>, s: string) returns (found: bool)
    ensures found <==> s in list
  {
    for i := 0 to |list|
      invariant s !in list[..i]
    {
      if list[i] == s {
        return true;
      }
    }
    return false;
  }

  /** The pod a cookie value speaks for, if it is genuine and the pod is ready. */
  function StickyPod(mac: Mac, cookie: Option<string>, ips: seq<string>): Option<string> {
    if cookie.None? then None
    else
      var (ip, ok) := VerifyGo(mac, cookie.value);
      if ok && ip in ips then Some(ip) else None
  }

  function EventOf(mac: Mac, cookie: Option<string>, ips: seq<string>): Event {
    if StickyPod(mac, cookie, ips).Some? then StickyHit else if cookie.None? then NewAssignment else CookieRejected
  }

  /** A hit is the signed form of a ready address; without a cookie the pod is new; any other cookie is rejected. */
  predicate Happened(mac: Mac, cookie: Option<string>, ips: seq<string>, event: Event) {
    match event
    case StickyHit => exists ip | ip in ips :: cookie == Some(Sign(mac, ip))
    case NewAssignment => cookie == None
    case CookieRejected => cookie.Some? && forall ip | ip in ips :: cookie != Some(Sign(mac, ip))
  }

  /** Exactly one event happens, and it is the one that is counted. */
  lemma EventMeans(mac: Mac, cookie: Option<string>, ips: seq<string>)
    ensures forall e :: Happened(mac, cookie, ips, e) <==> e == EventOf(mac, cookie, ips)
    ensures forall ip :: StickyPod(mac, cookie, ips) == Some(ip) <==> cookie == Some(Sign(mac, ip)) && ip in ips
  {
    hide Sign;
    if cookie.Some? {
      forall ip
        ensures VerifyGo(mac, cookie.value) == (ip, true) <==> cookie == Some(Sign(mac, ip))
      {
        VerifyInvertsSign(mac, cookie.value, ip);
      }
      var (v, ok) := VerifyGo(mac, cookie.value);
      if ok { assert VerifyGo(mac, cookie.value) == (v, true); }
    }
  }

  /** choose, with the index that Pick returns. */
  method Choose(mac: Mac, cookie: Option<string>, ips: seq<string>, pick: nat) returns (target: string, event: Event)
    requires pick < |ips|
    ensures target in ips
    ensures event == EventOf(mac, cookie, ips) && Happened(mac, cookie, ips, event)
    ensures target == if event == StickyHit then StickyPod(mac, cookie, ips).value else ips[pick]
    ensures event == StickyHit ==> cookie == Some(Sign(mac, target))
  {
    EventMeans(mac, cookie, ips);
    event := NewAssignment;
    if cookie.Some? {
      event := CookieRejected;
      var (ip, ok) := VerifyGo(mac, cookie.value);
      if ok {
        var ready := Contains(ips, ip);
        if ready {
          return ip, StickyHit;
        }
      }
    }
    return ips[pick], event;
  }

  /** The same decision in sticky-proxy.js, where the empty string counts as no cookie and as no pod. */
  method ChooseNode(mac: Mac, cookies: map<string, string>, name: string, ips: seq<string>, pick: nat)
    returns (targetIP: string, setCookie: bool)
    requires pick < |ips|
    ensures targetIP in ips
    ensures var sticky := NodePod(mac, if name in cookies then Some(cookies[name]) else None, ips);
            setCookie == sticky.None? && targetIP == if sticky.Some? then sticky.value else ips[pick]
  {
    targetIP := "";
    setCookie := false;
    if name in cookies && cookies[name] != "" {
      var verified := VerifyNode(mac, cookies[name]);
      if verified.Some? && verified.value != "" && verified.value in ips {
        targetIP := verified.value;
      }
    }
    if targetIP == "" {
      targetIP := ips[pick];
      setCookie := true;
    }
  }

  function NodePod(mac: Mac, cookie: Option<string>, ips: seq<string>): Option<string> {
    if cookie.None? || cookie.value == "" then None
    else
      var verified := VerifyNode(mac, cookie.value);
      if verified.Some? && verified.value != "" && verified.value in ips then verified else None
  }

  /** The two proxies stick to the same pod, except where the empty string is a ready address. */
  lemma ProxiesStickAlike(mac: Mac, cookie: Option<string>, ips: seq<string>)
    ensures NodePod(mac, cookie, ips) == StickyPod(mac, cookie, ips)
       <==> !(cookie == Some(Sign(mac, "")) && "" in ips)
  {
    if cookie.Some? {
      VerifiersAgree(mac, cookie.value);
      VerifyInvertsSign(mac, cookie.value, "");
      assert LastIndex("", '.') == -1;
    }
  }
}
