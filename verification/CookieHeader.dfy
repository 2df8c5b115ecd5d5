/** The Cookie header as sticky-proxy.js reads it (parseCookies), against how a client prints it. */
module CookieHeader {
  import opened Options
  import opened Text

  // ----- split and join -----

  function Split(s: string, c: char): (parts: seq<string>)
    ensures parts != []
  {
    if c !in s then [s]
    else
      var i := LastIndex(s, c);
      Split(s[..i], c) + [s[i + 1..]]
  }

  function Join(parts: seq<string>, c: char): string {
    if parts == [] then ""
    else if |parts| == 1 then parts[0]
    else Join(parts[..|parts| - 1], c) + [c] + parts[|parts| - 1]
  }

  lemma SplitLast(a: string, b: string, c: char)
    requires c !in b
    ensures Split(a + [c] + b, c) == Split(a, c) + [b]
  {
    var s := a + [c] + b;
    LastDelimiter(a, b, c);
    assert s[|a|] == c;
    assert s[..|a|] == a && s[|a| + 1..] == b;
  }

  lemma {:induction false} JoinSplit(s: string, c: char)
    ensures Join(Split(s, c), c) == s
  {
    if c in s {
      var i := LastIndex(s, c);
      JoinSplit(s[..i], c);
      var parts := Split(s, c);
      assert parts[..|parts| - 1] == Split(s[..i], c);
      assert s == s[..i] + [c] + s[i + 1..];
    }
  }

  /** Without the delimiter in k, the first field is k and the others are those of the rest. */
  lemma {:induction false} SplitFirst(k: string, v: string, c: char)
    requires c !in k
    ensures Split(k + [c] + v, c) == [k] + Split(v, c)
    decreases |v|
  {
    if c !in v {
      SplitLast(k, v, c);
    } else {
      var i := LastIndex(v, c);
      var front, last := v[..i], v[i + 1..];
      assert v == front + [c] + last;
      assert k + [c] + v == (k + [c] + front) + [c] + last;
      SplitLast(k + [c] + front, last, c);
      SplitFirst(k, front, c);
      assert [k] + Split(front, c) + [last] == [k] + (Split(front, c) + [last]);
    }
  }

  // ----- trim -----

  /** White space and line terminators of ECMAScript. */
  predicate IsSpace(c: char) {
    var n := c as int;
    9 <= n <= 13 || n == 32 || n == 0xA0 || n == 0x1680 || 0x2000 <= n <= 0x200A || n == 0x2028 || n == 0x2029
    || n == 0x202F || n == 0x205F || n == 0x3000 || n == 0xFEFF
  }

  function TrimStart(s: string): string {
    if s != "" && IsSpace(s[0]) then TrimStart(s[1..]) else s
  }

  function TrimEnd(s: string): string {
    if s != "" && IsSpace(s[|s| - 1]) then TrimEnd(s[..|s| - 1]) else s
  }

  function Trim(s: string): string {
    TrimEnd(TrimStart(s))
  }

  // ----- parseCookies -----

  /** The inherited accessor of every plain JavaScript object; its setter ignores a string. */
  const PROTO := "__proto__"

  /** out[k] = v on a plain object, where v is a string. */
  function Assign(out: map<string, string>, k: string, v: string): map<string, string> {
    if k == PROTO then out else out[k := v]
  }

  /** One part of the header: trim, split at "=", keep the first field as name if it is not empty. */
  function Bind(jar: map<string, string>, part: string): map<string, string> {
    var fields := Split(Trim(part), '=');
    if fields[0] == "" then jar else Assign(jar, fields[0], Join(fields[1..], '='))
  }

  function BindAll(parts: seq<string>): map<string, string> {
    if parts == [] then map[] else Bind(BindAll(parts[..|parts| - 1]), parts[|parts| - 1])
  }

  function Parsed(header: string): map<string, string> {
    BindAll(Split(header, ';'))
  }

  method ParseCookies(header: Option<string>) returns (out: map<string, string>)
    ensures out == Parsed(if header.Some? then header.value else "")
  {
    hide Split, Join, Trim;
    var text := if header.Some? then header.value else "";
    var parts := Split(text, ';');
    out := map[];
    for i := 0 to |parts|
      invariant out == BindAll(parts[..i])
    {
      var fields := Split(Trim(parts[i]), '=');
      if fields[0] != "" {
        out := Assign(out, fields[0], Join(fields[1..], '='));
      }
      assert parts[..i + 1][..i] == parts[..i];
    }
    assert parts[..|parts|] == parts;
  }

  // ----- printing -----

  /** A cookie a client can hold: no separators where they would matter, no white space at the ends. */
  predicate Clean(k: string, v: string) {
    && k != "" && '=' !in k && ';' !in k && ';' !in v
    && !IsSpace(k[0]) && (v != "" ==> !IsSpace(v[|v| - 1]))
  }

  predicate AllClean(cookies: seq<(string, string)>) {
    forall i | 0 <= i < |cookies| :: Clean(cookies[i].0, cookies[i].1)
  }

  function Pair(k: string, v: string): string {
    k + ['='] + v
  }

  /** The header of section 5.4 of RFC 6265. */
  function Print(cookies: seq<(string, string)>): string {
    if cookies == [] then ""
    else
      var n := |cookies| - 1;
      var last := Pair(cookies[n].0, cookies[n].1);
      if n == 0 then last else Print(cookies[..n]) + [';'] + ([' '] + last)
  }

  /** Later cookies of the same name win. */
  function Held(cookies: seq<(string, string)>): map<string, string> {
    if cookies == [] then map[]
    else
      var n := |cookies| - 1;
      Held(cookies[..n])[cookies[n].0 := cookies[n].1]
  }

  lemma TrimPair(k: string, v: string)
    requires Clean(k, v)
    ensures Trim(Pair(k, v)) == Pair(k, v) && Trim([' '] + Pair(k, v)) == Pair(k, v)
  {
    var s := Pair(k, v);
    assert s[0] == k[0];
    assert s[|s| - 1] == if v == "" then '=' else v[|v| - 1];
    assert ([' '] + s)[1..] == s;
  }

  lemma BindPair(jar: map<string, string>, part: string, k: string, v: string)
    requires Clean(k, v) && Trim(part) == Pair(k, v)
    ensures Bind(jar, part) == Assign(jar, k, v)
  {
    SplitFirst(k, v, '=');
    JoinSplit(v, '=');
    assert ([k] + Split(v, '='))[1..] == Split(v, '=');
  }

  lemma EmptyHeader()
    ensures Parsed("") == map[]
  {
    var parts := Split("", ';');
    assert parts[..0] == [] && Trim("") == "";
    assert Split(Trim(parts[0]), '=') == [""];
  }

  lemma OneCookie(k: string, v: string)
    requires Clean(k, v)
    ensures Parsed(Pair(k, v)) == Assign(map[], k, v)
  {
    var parts := Split(Pair(k, v), ';');
    assert parts == [Pair(k, v)];
    assert parts[..0] == [] && BindAll(parts) == Bind(BindAll([]), Pair(k, v));
    TrimPair(k, v);
    BindPair(map[], Pair(k, v), k, v);
  }

  lemma OneMoreCookie(front: string, k: string, v: string)
    requires Clean(k, v)
    ensures Parsed(front + [';'] + ([' '] + Pair(k, v))) == Assign(Parsed(front), k, v)
  {
    var part, parts := [' '] + Pair(k, v), Split(front, ';');
    SplitLast(front, part, ';');
    assert (parts + [part])[..|parts|] == parts;
    TrimPair(k, v);
    BindPair(Parsed(front), part, k, v);
  }

  /**
    Reading the header a client prints gives exactly the cookies it holds, but for the one
    name that objects reserve.
   */
  lemma {:induction false} ParsedInvertsPrint(cookies: seq<(string, string)>)
    requires AllClean(cookies)
    ensures Parsed(Print(cookies)) == Held(cookies) - {PROTO}
  {
    hide Parsed, Pair, Clean;
    if cookies == [] {
      EmptyHeader();
    } else {
      var n := |cookies| - 1;
      if n == 0 {
        OneCookie(cookies[n].0, cookies[n].1);
        assert Held(cookies[..0]) == map[];
      } else {
        ParsedInvertsPrint(cookies[..n]);
        OneMoreCookie(Print(cookies[..n]), cookies[n].0, cookies[n].1);
      }
    }
  }

  /** The round trip is exact if and only if no cookie has that name. */
  lemma RoundTripsExactly(cookies: seq<(string, string)>)
    requires AllClean(cookies)
    ensures Parsed(Print(cookies)) == Held(cookies) <==> forall i | 0 <= i < |cookies| :: cookies[i].0 != PROTO
  {
    hide Parsed, Print, Clean;
    ParsedInvertsPrint(cookies);
    HeldNames(cookies, PROTO);
    assert PROTO !in Held(cookies) - {PROTO};
    if PROTO !in Held(cookies) { assert Held(cookies) - {PROTO} == Held(cookies); }
  }

  lemma {:induction false} HeldNames(cookies: seq<(string, string)>, name: string)
    ensures name in Held(cookies) <==> exists i :: 0 <= i < |cookies| && cookies[i].0 == name
  {
    if cookies != [] {
      var n := |cookies| - 1;
      HeldNames(cookies[..n], name);
      if exists i :: 0 <= i < n && cookies[i].0 == name {
        var i :| 0 <= i < n && cookies[i].0 == name;
        assert cookies[..n][i] == cookies[i];
      }
    }
  }

  /** A well-formed cookie that is lost. */
  lemma ProtoIsLost(v: string)
    requires Clean(PROTO, v)
    ensures Parsed(Print([(PROTO, v)])) == map[]
  {
    OneCookie(PROTO, v);
    assert [(PROTO, v)][..0] == [];
  }

  // ----- What trimming does -----

  predicate AllSpace(s: string) {
    forall i | 0 <= i < |s| :: IsSpace(s[i])
  }

  lemma {:induction false} TrimStartMeans(s: string) returns (a: string)
    ensures s == a + TrimStart(s) && AllSpace(a)
    ensures TrimStart(s) != "" ==> !IsSpace(TrimStart(s)[0])
  {
    a := "";
    if s != "" && IsSpace(s[0]) {
      var rest := TrimStartMeans(s[1..]);
      a := [s[0]] + rest;
      assert s == [s[0]] + s[1..];
    }
  }

  lemma {:induction false} TrimEndMeans(s: string) returns (b: string)
    ensures s == TrimEnd(s) + b && AllSpace(b)
    ensures TrimEnd(s) != "" ==> !IsSpace(TrimEnd(s)[|TrimEnd(s)| - 1])
  {
    b := "";
    if s != "" && IsSpace(s[|s| - 1]) {
      var rest := TrimEndMeans(s[..|s| - 1]);
      b := rest + [s[|s| - 1]];
      assert s == s[..|s| - 1] + [s[|s| - 1]];
    }
  }

  /** Trimming takes white space off both ends, all of it, and nothing else. */
  lemma TrimMeans(s: string) returns (a: string, b: string)
    ensures s == a + Trim(s) + b && AllSpace(a) && AllSpace(b)
    ensures Trim(s) != "" ==> !IsSpace(Trim(s)[0]) && !IsSpace(Trim(s)[|Trim(s)| - 1])
  {
    a := TrimStartMeans(s);
    b := TrimEndMeans(TrimStart(s));
    assert a + (Trim(s) + b) == a + Trim(s) + b;
    if Trim(s) != "" { assert TrimStart(s)[0] == Trim(s)[0]; }
  }
}
