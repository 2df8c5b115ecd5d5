/**
  The signed affinity cookie of both proxies (proxy/cookie.go,
  k8s/proxy/sticky-proxy.js). The MAC is any function from strings to hex digests;
  nothing is assumed about collisions.
 */
module Cookie {
  import opened Options
  import opened Text

  predicate IsHex(c: char) {
    '0' <= c <= '9' || 'a' <= c <= 'f'
  }

  predicate IsDigest(d: string) {
    |d| == 64 && forall i | 0 <= i < |d| :: IsHex(d[i])
  }

  /** Hex-encoded HMAC-SHA256 output. */
  type Digest = d: string | IsDigest(d) witness seq(64, i => '0')

  /** The keyed MAC of one platform secret, shared by the whole fleet. */
  type Mac = string -> Digest

  function Sign(mac: Mac, value: string): string {
    value + "." + mac(value)
  }

  /** Signer.Verify: the value and a flag. */
  function VerifyGo(mac: Mac, signed: string): (string, bool) {
    var i := LastIndex(signed, '.');
    if i == -1 then ("", false)
    else
      var value, sig := signed[..i], signed[i + 1..];
      if sig != mac(value) then ("", false) else (value, true)
  }

  /** verify: the value or null. */
  function VerifyNode(mac: Mac, signed: string): Option<string> {
    var idx := LastIndex(signed, '.');
    if idx == -1 then None
    else
      var value, sig := signed[..idx], signed[idx + 1..];
      if sig == mac(value) then Some(value) else None
  }

  lemma DigestHasNoDot(d: Digest)
    ensures '.' !in d
  {
    assert !IsHex('.');
  }

  /**
    Verify accepts exactly the strings that Sign makes, and returns the signed value,
    dots in it included. A string therefore carries at most one value.
   */
  lemma VerifyInvertsSign(mac: Mac, s: string, v: string)
    ensures VerifyGo(mac, s) == (v, true) <==> s == Sign(mac, v)
  {
    DigestHasNoDot(mac(v));
    if s == Sign(mac, v) {
      LastDelimiter(v, mac(v), '.');
      assert s[..|v|] == v && s[|v| + 1..] == mac(v);
    }
    if VerifyGo(mac, s) == (v, true) {
      var i := LastIndex(s, '.');
      assert s == s[..i] + [s[i]] + s[i + 1..];
    }
  }

  lemma SignInjective(mac: Mac, v: string, w: string)
    ensures Sign(mac, v) == Sign(mac, w) <==> v == w
  {
    VerifyInvertsSign(mac, Sign(mac, v), v);
    VerifyInvertsSign(mac, Sign(mac, v), w);
  }

  /** The two verifiers accept the same strings with the same values, on every string. */
  lemma VerifiersAgree(mac: Mac, s: string)
    ensures VerifyNode(mac, s) == if VerifyGo(mac, s).1 then Some(VerifyGo(mac, s).0) else None
  {}
}
