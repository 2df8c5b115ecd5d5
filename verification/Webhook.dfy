/**
  Webhook signing and delivery (shared/webhook_dispatcher.py) and the receiver's
  decision (scripts/webhook_test_receiver.py). Bytes are characters below 256; the
  MAC is any function of a secret and a message.
 */
module Webhook {
  import opened Options
  import opened Text
  import opened Cookie
  import opened ControlPlane
  import opened Invariant
  import Theorems

  type KeyedMac = (string, string) -> Digest

  const REPLAY_WINDOW := 300
  const SCHEME := "sha256="

  /** What is signed: the timestamp is part of it, so a body cannot be replayed under another one. */
  function Message(timestamp: nat, body: string): string {
    Decimal(timestamp) + ['.'] + body
  }

  function SignPayload(hmac: KeyedMac, secret: string, timestamp: nat, body: string): Digest {
    hmac(secret, Message(timestamp, body))
  }

  lemma MessageInjective(t: nat, b: string, u: nat, c: string)
    ensures Message(t, b) == Message(u, c) <==> t == u && b == c
  {
    if Message(t, b) == Message(u, c) {
      assert !IsDigit('.');
      FirstDelimiter(Decimal(t), b, Decimal(u), c, '.');
      DecimalInjective(t, u);
    }
  }

  // ----- Receiver -----

  datatype Reason = BadSignatureHeader | BadTimestampHeader | OutsideWindow | Mismatch

  /** Raised: do_POST ends in an exception and sends no response. */
  datatype Decision = Accept | Reject(reason: Reason) | Raised

  /** str.isdigit on a Latin-1 header also holds of the superscripts one, two and three. */
  predicate IsDigitOrSuperscript(c: char) {
    IsDigit(c) || c as int in {0xB2, 0xB3, 0xB9}
  }

  predicate PythonIsDigit(s: string) {
    s != "" && forall i | 0 <= i < |s| :: IsDigitOrSuperscript(s[i])
  }

  predicate IsAscii(s: string) {
    forall i | 0 <= i < |s| :: s[i] as int < 128
  }

  function Distance(now: int, timestamp: int): int {
    if now >= timestamp then now - timestamp else timestamp - now
  }

  /** A missing header reads as the empty string; int() refuses superscripts, compare_digest refuses non-ASCII text. */
  function Receive(hmac: KeyedMac, secret: string, signature: string, timestamp: string, body: string,
                   now: int): Decision {
    if !(SCHEME <= signature) then Reject(BadSignatureHeader)
    else
      var provided := signature[|SCHEME|..];
      if !PythonIsDigit(timestamp) then Reject(BadTimestampHeader)
      else if !AllDigits(timestamp) then Raised
      else
        var t := Value(timestamp);
        if Distance(now, t) > REPLAY_WINDOW then Reject(OutsideWindow)
        else if !IsAscii(provided) then Raised
        else if provided != hmac(secret, Message(t, body)) then Reject(Mismatch)
        else Accept
  }

  lemma DigestIsAscii(d: Digest)
    ensures IsAscii(d)
  {
    assert forall i | 0 <= i < |d| :: IsHex(d[i]);
  }

  /** The receiver accepts exactly a digit timestamp inside the window with the MAC of that timestamp and body. */
  lemma AcceptsExactly(hmac: KeyedMac, secret: string, signature: string, timestamp: string, body: string, now: int)
    ensures Receive(hmac, secret, signature, timestamp, body, now) == Accept
       <==> && timestamp != "" && AllDigits(timestamp) && -300 <= now - Value(timestamp) <= 300
            && signature == "sha256=" + hmac(secret, Decimal(Value(timestamp)) + "." + body)
  {
    if AllDigits(timestamp) {
      var mac := SignPayload(hmac, secret, Value(timestamp), body);
      DigestIsAscii(mac);
      assert (SCHEME + mac)[|SCHEME|..] == mac;
      assert SCHEME <= signature ==> signature == SCHEME + signature[|SCHEME|..];
      DecimalOfMessage(Value(timestamp), body);
      assert forall i | 0 <= i < |timestamp| :: IsDigitOrSuperscript(timestamp[i]);
    }
  }

  /**
    The receiver raises, and sends no answer, exactly on a timestamp with a superscript
    digit, and on a signature that is not ASCII with a timestamp inside the window.
   */
  lemma RaisesExactly(hmac: KeyedMac, secret: string, signature: string, timestamp: string, body: string, now: int)
    ensures Receive(hmac, secret, signature, timestamp, body, now) == Raised
       <==> && "sha256=" <= signature && timestamp != ""
            && (forall i | 0 <= i < |timestamp| ::
                  '0' <= timestamp[i] <= '9' || timestamp[i] in {'\U{00B2}', '\U{00B3}', '\U{00B9}'})
            && (|| !AllDigits(timestamp)
                || (&& -300 <= now - Value(timestamp) <= 300
                    && exists i :: 7 <= i < |signature| && signature[i] as int >= 128))
  {
    assert PythonIsDigit(timestamp) <==> timestamp != "" && forall i | 0 <= i < |timestamp| ::
      '0' <= timestamp[i] <= '9' || timestamp[i] in {'\U{00B2}', '\U{00B3}', '\U{00B9}'};
    if SCHEME <= signature {
      var tag := signature[|SCHEME|..];
      assert forall i | 7 <= i < |signature| :: signature[i] == tag[i - 7];
      assert forall i | 0 <= i < |tag| :: tag[i] == signature[i + 7];
    }
  }

  /** Why a request is rejected: the first of the four tests, in the order of the code, that fails. */
  lemma RejectsExactly(hmac: KeyedMac, secret: string, signature: string, timestamp: string, body: string, now: int)
    ensures var d := Receive(hmac, secret, signature, timestamp, body, now);
            && (d == Reject(BadSignatureHeader) <==> !("sha256=" <= signature))
            && (d == Reject(BadTimestampHeader) <==> "sha256=" <= signature && !PythonIsDigit(timestamp))
            && (d == Reject(OutsideWindow) <==>
                  && "sha256=" <= signature && timestamp != "" && AllDigits(timestamp)
                  && !(-300 <= now - Value(timestamp) <= 300))
            && (d == Reject(Mismatch) <==>
                  && "sha256=" <= signature && timestamp != "" && AllDigits(timestamp)
                  && -300 <= now - Value(timestamp) <= 300 && IsAscii(signature[7..])
                  && signature[7..] != hmac(secret, Decimal(Value(timestamp)) + "." + body))
  {
    if AllDigits(timestamp) && timestamp != "" {
      assert PythonIsDigit(timestamp);
      DecimalOfMessage(Value(timestamp), body);
    }
  }

  lemma DecimalOfMessage(timestamp: nat, body: string)
    ensures Message(timestamp, body) == Decimal(timestamp) + "." + body
  {}

  /** A superscript two as timestamp, and an accented letter as signature, whatever the rest is. */
  lemma ReceiverCanRaise(hmac: KeyedMac, secret: string, body: string, now: nat)
    ensures Receive(hmac, secret, SCHEME, ['\U{00B2}'], body, now) == Raised
    ensures Receive(hmac, secret, SCHEME + ['\U{00E9}'], Decimal(now), body, now) == Raised
  {
    var superscript, accented := ['\U{00B2}'], SCHEME + ['\U{00E9}'];
    assert !IsDigit(superscript[0]) && IsDigitOrSuperscript(superscript[0]);
    RaisesExactly(hmac, secret, SCHEME, superscript, body, now);
    ValueOfDecimal(now);
    assert accented[|SCHEME|..] == ['\U{00E9}'] && ['\U{00E9}'][0] as int >= 128;
    assert forall i | 0 <= i < |Decimal(now)| :: IsDigitOrSuperscript(Decimal(now)[i]);
    RaisesExactly(hmac, secret, accented, Decimal(now), body, now);
  }

  /** What the dispatcher sends is accepted if and only if it arrives within the replay window. */
  lemma SentIsAccepted(hmac: KeyedMac, secret: string, timestamp: nat, body: string, now: int)
    ensures var signature := "sha256=" + SignPayload(hmac, secret, timestamp, body);
            var d := Receive(hmac, secret, signature, Decimal(timestamp), body, now);
            && (d == Accept <==> -300 <= now - timestamp <= 300)
            && (d != Accept ==> d == Reject(OutsideWindow))
  {
    var signature := SCHEME + SignPayload(hmac, secret, timestamp, body);
    ValueOfDecimal(timestamp);
    AcceptsExactly(hmac, secret, signature, Decimal(timestamp), body, now);
    assert forall i | 0 <= i < |Decimal(timestamp)| :: IsDigitOrSuperscript(Decimal(timestamp)[i]);
    assert SCHEME <= signature;
  }

  /** The tag was made for some message that was really signed. */
  ghost predicate Issued(hmac: KeyedMac, secret: string, signed: set<(nat, string)>, tag: string) {
    exists p :: p in signed && tag == SignPayload(hmac, secret, p.0, p.1)
  }

  /** The presented message has the MAC of no signed message but itself. */
  ghost predicate CollidesWithNone(hmac: KeyedMac, secret: string, signed: set<(nat, string)>, timestamp: nat,
                                   body: string) {
    forall p | p in signed && SignPayload(hmac, secret, p.0, p.1) == SignPayload(hmac, secret, timestamp, body) ::
      Message(p.0, p.1) == Message(timestamp, body)
  }

  /**
    Whatever is accepted under an issued tag was signed with this very timestamp and body,
    no longer ago than the window.
   */
  lemma AcceptedWasSigned(hmac: KeyedMac, secret: string, signed: set<(nat, string)>,
                          signature: string, timestamp: string, body: string, now: int)
    requires Receive(hmac, secret, signature, timestamp, body, now) == Accept
    requires Issued(hmac, secret, signed, signature[|SCHEME|..])
    requires AllDigits(timestamp) ==> CollidesWithNone(hmac, secret, signed, Value(timestamp), body)
    ensures AllDigits(timestamp) && (Value(timestamp), body) in signed
    ensures Distance(now, Value(timestamp)) <= REPLAY_WINDOW
  {
    AcceptsExactly(hmac, secret, signature, timestamp, body, now);
    var t := Value(timestamp);
    assert SignPayload(hmac, secret, t, body) == signature[|SCHEME|..];
    var p :| p in signed && signature[|SCHEME|..] == SignPayload(hmac, secret, p.0, p.1);
    MessageInjective(t, body, p.0, p.1);
  }

  // ----- Dispatcher -----

  datatype Reply = Status(code: nat) | NoReply(error: string)

  datatype AttemptStatus = AttemptSuccess | AttemptFailed

  /** A delivery row with what was sent and how it went. */
  datatype Attempt = Attempt(row: Delivery, signature: string, status: AttemptStatus, httpStatus: Option<nat>,
                             error: Option<string>)

  predicate Acknowledged(r: Reply) {
    r.Status? && 200 <= r.code < 300
  }

  /** The scan names every registration once, in whatever order the database likes. */
  ghost predicate Scans(registrations: map<nat, Registration>, scan: seq<nat>) {
    Distinct(scan) && forall r :: r in scan <==> r in registrations
  }

  /** The select: what the scan meets that is active and the tenant's. */
  function ActiveFor(registrations: map<nat, Registration>, scan: seq<nat>, tenant: nat): seq<nat> {
    if scan == [] then []
    else
      var n := |scan| - 1;
      var front, r := ActiveFor(registrations, scan[..n], tenant), scan[n];
      if r in registrations && registrations[r].tenant == tenant && registrations[r].active then front + [r] else front
  }

  lemma {:induction false} ActiveForExactly(registrations: map<nat, Registration>, scan: seq<nat>, tenant: nat, r: nat)
    ensures r in ActiveFor(registrations, scan, tenant)
       <==> r in scan && r in registrations && registrations[r].tenant == tenant && registrations[r].active
  {
    if scan != [] {
      var n := |scan| - 1;
      assert scan == scan[..n] + [scan[n]];
      ActiveForExactly(registrations, scan[..n], tenant, r);
    }
  }

  lemma {:induction false} ActiveForDistinct(registrations: map<nat, Registration>, scan: seq<nat>, tenant: nat)
    requires Distinct(scan)
    ensures Distinct(ActiveFor(registrations, scan, tenant))
  {
    if scan != [] {
      var n := |scan| - 1;
      ActiveForDistinct(registrations, scan[..n], tenant);
      var front := ActiveFor(registrations, scan[..n], tenant);
      forall i | 0 <= i < |front|
        ensures front[i] != scan[n]
      {
        ActiveForExactly(registrations, scan[..n], tenant, front[i]);
      }
    }
  }

  /** The row is the one a dispatcher's turn adds; the signature is made with its secret; and it says how it went. */
  predicate Records(d: Attempt, hmac: KeyedMac, row: Delivery, body: string, reply: Reply) {
    && d.row == row && d.signature == SignPayload(hmac, row.secret, row.timestamp, body)
    && (d.status.AttemptSuccess? <==> Acknowledged(reply)) && (d.error.None? <==> Acknowledged(reply))
    && d.httpStatus == if reply.Status? then Some(reply.code) else None
  }

  /** The row for the i-th of the selected registrations. */
  function RowTo(registrations: map<nat, Registration>, to: seq<nat>, i: nat,
                 event: string, p: Payload, clock: nat -> nat): Delivery
    requires i < |to| && to[i] in registrations
  {
    Delivery(p.tenant, to[i], event, p, clock(i), registrations[to[i]].secret)
  }

  /** The session a dispatcher adds rows to. */
  class Session {
    var added: seq<Attempt>
    var committed: seq<Attempt>

    constructor ()
      ensures added == [] && committed == []
    {
      added, committed := [], [];
    }

    method Add(d: Attempt)
      modifies this
      ensures added == old(added) + [d] && committed == old(committed)
    {
      added := added + [d];
    }

    method Commit()
      modifies this
      ensures committed == old(committed + added) && added == []
    {
      committed, added := committed + added, [];
    }
  }

  /** dispatch_tenant_webhooks, with the clock, the replies and the printing of the payload as inputs. */
  method DispatchTenantWebhooks(session: Session, hmac: KeyedMac, registrations: map<nat, Registration>, scan: seq<nat>,
                                event: string, p: Payload, encode: Payload -> string, clock: nat -> nat,
                                    replies: nat -> Reply)
    requires session.added == []
    modifies session
    ensures session.added == []
    ensures var to := ActiveFor(registrations, scan, p.tenant); var before := old(session.committed);
            && |session.committed| == |before| + |to| && session.committed[..|before|] == before
            && forall i | 0 <= i < |to| ::
                 && to[i] in registrations
                 && Records(session.committed[|before| + i], hmac, RowTo(registrations, to, i, event, p, clock),
                            encode(p), replies(i))
  {
    var to := ActiveFor(registrations, scan, p.tenant);
    for i := 0 to |to|
      invariant session.committed == old(session.committed) && |session.added| == i
      invariant forall j | 0 <= j < i ::
                  && to[j] in registrations
                  && Records(session.added[j], hmac, RowTo(registrations, to, j, event, p, clock),
                             encode(p), replies(j))
    {
      ActiveForExactly(registrations, scan, p.tenant, to[i]);
      var timestamp, body, secret := clock(i), encode(p), registrations[to[i]].secret;
      var signature := SignPayload(hmac, secret, timestamp, body);
      var row := Delivery(p.tenant, to[i], event, p, timestamp, secret);
      var delivery := Attempt(row, signature, AttemptFailed, None, None);
      match replies(i) {
        case Status(code) =>
          delivery := delivery.(httpStatus := Some(code));
          if 200 <= code < 300 {
            delivery := delivery.(status := AttemptSuccess);
          } else {
            delivery := delivery.(error := Some("Webhook returned non-2xx status code: " + Decimal(code)));
          }
        case NoReply(error) =>
          delivery := delivery.(error := Some(error));
      }
      session.Add(delivery);
    }
    if |to| > 0 {
      session.Commit();
    }
  }

  // ----- The dispatcher inside runs -----

  /**
    The two turns of a dispatcher in the transition system are this method: given the same
    scan and clock they add, at the next keys, exactly the rows the method commits.
   */
  lemma DispatcherTurnsAreTheMethod(s: State, w: nat, scan: seq<nat>, a: Answer)
    requires w in s.workers && s.workers[w].Dispatcher? && s.workers[w].recipients.None?
    requires s.workers[w].payload.tenant in s.db.tenants && Scans(s.db.registrations, scan)
    requires a.fault.NoFault? && a.order == ActiveFor(s.db.registrations, scan, s.workers[w].payload.tenant)
    ensures var x, s' := s.workers[w], Apply(Apply(s, Work(w, a)), Work(w, a));
            && s'.db == s.db.(deliveries := s'.db.deliveries, nextDelivery := s.db.nextDelivery + |a.order|)
            && (forall i | i in s.db.deliveries && i < s.db.nextDelivery ::
                  i in s'.db.deliveries && s'.db.deliveries[i] == s.db.deliveries[i])
            && forall i | s.db.nextDelivery <= i < s.db.nextDelivery + |a.order| ::
                 var j := i - s.db.nextDelivery;
                 && i in s'.db.deliveries && a.order[j] in s.db.registrations
                 && s'.db.deliveries[i] == RowTo(s.db.registrations, a.order, j, x.event, x.payload, a.clock)
  {
    hide ActiveFor, DeliveryRows, Apply, SecretsOf, RowFor, RowTo, Scans;
    PickTurn(s, w, scan, a);
    InsertTurn(s, w, a);
    var x, base := s.workers[w], s.db.nextDelivery;
    var signing := Signing(SecretsOf(s.db.registrations, a.order), a.clock);
    RowsInserted(s, x.event, x.payload, a.order, signing);
    var s' := InsertDeliveries(s, x.event, x.payload, a.order, signing);
    forall i | base <= i < base + |a.order|
      ensures var j := i - base;
              && i in s'.db.deliveries && a.order[j] in s.db.registrations
              && s'.db.deliveries[i] == RowTo(s.db.registrations, a.order, j, x.event, x.payload, a.clock)
    {
      assert a.order[i - base] in a.order;
      RowsAreEqual(s.db.registrations, a.order, i - base, x.event, x.payload, a.clock);
    }
  }

  lemma RowsAreEqual(registrations: map<nat, Registration>, order: seq<nat>, j: nat,
                     event: string, p: Payload, clock: nat -> nat)
    requires j < |order| && order[j] in registrations
    ensures RowFor(event, p, order[j], j, Signing(SecretsOf(registrations, order), clock))
         == RowTo(registrations, order, j, event, p, clock)
  {
    assert order[j] in order;
  }

  /** The dispatcher after the select. */
  function Picked(s: State, w: nat, order: seq<nat>): State
    requires w in s.workers && s.workers[w].Dispatcher?
  {
    SetWorker(s, w, s.workers[w].(recipients := Some(order), secrets := SecretsOf(s.db.registrations, order)))
  }

  lemma PickTurn(s: State, w: nat, scan: seq<nat>, a: Answer)
    requires w in s.workers && s.workers[w].Dispatcher? && s.workers[w].recipients.None?
    requires Scans(s.db.registrations, scan)
    requires a.fault.NoFault? && a.order == ActiveFor(s.db.registrations, scan, s.workers[w].payload.tenant)
    ensures Apply(s, Work(w, a)) == Picked(s, w, a.order)
    ensures forall r | r in a.order :: r in s.db.registrations
  {
    hide ActiveFor;
    var t := s.workers[w].payload.tenant;
    ActiveForDistinct(s.db.registrations, scan, t);
    var chosen := set r | r in a.order;
    forall r
      ensures r in chosen <==> r in ActiveRegistrations(s.db, t)
    {
      ActiveForExactly(s.db.registrations, scan, t, r);
    }
    assert chosen == ActiveRegistrations(s.db, t);
    assert forall r | r in a.order :: r in chosen;
  }

  lemma InsertTurn(s: State, w: nat, a: Answer)
    requires w in s.workers && s.workers[w].Dispatcher? && s.workers[w].payload.tenant in s.db.tenants
    requires a.fault.NoFault?
    requires forall r | r in a.order :: r in s.db.registrations
    ensures var x := s.workers[w];
            var signing := Signing(SecretsOf(s.db.registrations, a.order), a.clock);
            Apply(Picked(s, w, a.order), Work(w, a)).db == InsertDeliveries(s, x.event, x.payload, a.order, signing).db
  {
    hide DeliveryRows;
  }

  lemma RowsInserted(s: State, event: string, p: Payload, to: seq<nat>, signing: Signing)
    ensures var m, m', base := s.db.deliveries, InsertDeliveries(s, event, p, to, signing).db.deliveries,
        s.db.nextDelivery;
            && (forall i | i in m && i < base :: i in m' && m'[i] == m[i])
            && forall i | base <= i < base + |to| ::
                 i in m' && m'[i] == RowFor(event, p, to[i - base], i - base, signing)
  {
    hide DeliveryRows;
  }

  /** What the dispatcher sent for a row: the signature header, the timestamp header and the body. */
  function Sent(hmac: KeyedMac, encode: Payload -> string, v: Delivery): (string, string, string) {
    var body := encode(v.payload);
    (SCHEME + SignPayload(hmac, v.secret, v.timestamp, body), Decimal(v.timestamp), body)
  }

  /**
    Every delivery row of every run, however its payload is printed: the registration is
    there and of the row's tenant, and what was sent, signed with the secret the dispatcher
    had read at its select, is accepted under the registration's secret exactly within
    300 seconds of its timestamp.
   */
  lemma EveryRowVerifies(steps: seq<Step>, i: nat, hmac: KeyedMac, encode: Payload -> string, now: int)
    requires i in Run(steps).db.deliveries
    ensures var db := Run(steps).db; var v := db.deliveries[i];
            && v.registration in db.registrations && db.registrations[v.registration].tenant == v.payload.tenant
            && var (signature, timestamp, body) := Sent(hmac, encode, v);
               var d := Receive(hmac, db.registrations[v.registration].secret, signature, timestamp, body, now);
               && (d == Accept <==> -300 <= now - v.timestamp <= 300)
               && (d != Accept ==> d == Reject(OutsideWindow))
  {
    hide Receive, Run, Matches;
    Theorems.DeliveryIsOk(steps, i);
    var v := Run(steps).db.deliveries[i];
    SentIsAccepted(hmac, v.secret, v.timestamp, encode(v.payload), now);
  }
}
