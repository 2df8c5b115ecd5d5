/** The endpoint list of proxy/endpoints.go: which addresses, in which order, from which events. */
module Endpoints {
  import opened Options

  // ----- String order -----

  /** Byte-wise order of Go strings. */
  predicate Leq(a: string, b: string) {
    a == "" || (b != "" && (a[0] < b[0] || (a[0] == b[0] && Leq(a[1..], b[1..]))))
  }

  lemma {:induction false} LeqTotal(a: string, b: string)
    ensures Leq(a, b) || Leq(b, a)
    ensures Leq(a, b) && Leq(b, a) ==> a == b
  {
    if a != "" && b != "" {
      LeqTotal(a[1..], b[1..]);
      assert a == [a[0]] + a[1..] && b == [b[0]] + b[1..];
    }
  }

  lemma {:induction false} LeqTransitive(a: string, b: string, c: string)
    requires Leq(a, b) && Leq(b, c)
    ensures Leq(a, c)
  {
    if a != "" && a[0] == b[0] == c[0] {
      LeqTransitive(a[1..], b[1..], c[1..]);
    }
  }

  /** One is a prefix of the other, or smaller where they first differ. */
  lemma {:induction false} LeqMeans(a: string, b: string)
    ensures Leq(a, b) <==> a <= b || exists i :: 0 <= i < |a| && i < |b| && a[..i] == b[..i] && a[i] < b[i]
  {
    if a != "" && b != "" {
      assert a == [a[0]] + a[1..] && b == [b[0]] + b[1..];
      if a[0] == b[0] {
        LeqMeans(a[1..], b[1..]);
        assert a <= b <==> a[1..] <= b[1..];
        if i :| 0 <= i < |a| - 1 && i < |b| - 1 && a[1..][..i] == b[1..][..i] && a[1..][i] < b[1..][i] {
          assert a[..i + 1] == [a[0]] + a[1..][..i] && b[..i + 1] == [b[0]] + b[1..][..i];
        }
        if i :| 0 <= i < |a| && i < |b| && a[..i] == b[..i] && a[i] < b[i] {
          assert a[1..][..i - 1] == a[..i][1..] && b[1..][..i - 1] == b[..i][1..];
        }
      } else {
        assert a[..0] == b[..0];
        if i :| 0 <= i < |a| && i < |b| && a[..i] == b[..i] && a[i] < b[i] {
          if i > 0 { assert a[..i][0] == b[..i][0]; }
        }
      }
    }
  }

  predicate Sorted(s: seq<string>) {
    forall i, j | 0 <= i < j < |s| :: Leq(s[i], s[j])
  }

  lemma FirstIsLeast(s: seq<string>, x: string)
    requires Sorted(s) && x in multiset(s)
    ensures Leq(s[0], x)
  {
    var j :| 0 <= j < |s| && s[j] == x;
    LeqTotal(x, x);
  }

  /** There is only one sorted list of a given bag of addresses. */
  lemma {:induction false} SortedIsUnique(s: seq<string>, t: seq<string>)
    requires Sorted(s) && Sorted(t) && multiset(s) == multiset(t)
    ensures s == t
  {
    hide Leq, Sorted;
    SameBagSameLength(s, t);
    if s != [] {
      assert s[0] in multiset(s) && t[0] in multiset(t);
      FirstIsLeast(s, t[0]);
      FirstIsLeast(t, s[0]);
      LeqTotal(s[0], t[0]);
      Tail(s);
      Tail(t);
      SortedIsUnique(s[1..], t[1..]);
    }
  }

  lemma SameBagSameLength<T>(s: seq<T>, t: seq<T>)
    requires multiset(s) == multiset(t)
    ensures |s| == |t|
  {
    assert |s| == |multiset(s)| == |multiset(t)| == |t|;
  }

  lemma Tail(s: seq<string>)
    requires s != []
    ensures s == [s[0]] + s[1..] && multiset(s[1..]) == multiset(s) - multiset{s[0]}
    ensures Sorted(s) ==> Sorted(s[1..])
  {
    hide Leq;
    assert s == [s[0]] + s[1..];
  }

  // ----- readyAddresses -----

  datatype Endpoint = Endpoint(addresses: seq<string>, ready: Option<bool>)

  datatype Slice = Slice(endpoints: seq<Endpoint>)

  /** An endpoint without a ready condition counts as ready. */
  predicate Serves(e: Endpoint) {
    e.ready != Some(false)
  }

  function Addresses(es: seq<Endpoint>): seq<string> {
    if es == [] then []
    else Addresses(es[..|es| - 1]) + if Serves(es[|es| - 1]) then es[|es| - 1].addresses else []
  }

  /** The endpoints of all slices, one after the other. */
  function Flat(slices: seq<Slice>): seq<Endpoint> {
    if slices == [] then [] else Flat(slices[..|slices| - 1]) + slices[|slices| - 1].endpoints
  }

  lemma {:induction false} AddressesAppend(es: seq<Endpoint>, fs: seq<Endpoint>)
    ensures Addresses(es + fs) == Addresses(es) + Addresses(fs)
  {
    if fs == [] {
      assert es + fs == es;
    } else {
      var n := |fs| - 1;
      AddressesAppend(es, fs[..n]);
      assert (es + fs)[..|es| + n] == es + fs[..n];
    }
  }

  method SortStrings(list: seq<string>) returns (sorted: seq<string>)
    ensures Sorted(sorted) && multiset(sorted) == multiset(list)
  {
    sorted := [];
    for i := 0 to |list|
      invariant Sorted(sorted) && multiset(sorted) == multiset(list[..i])
    {
      sorted := InsertSorted(sorted, list[i]);
      assert list[..i + 1] == list[..i] + [list[i]];
    }
    assert list[..|list|] == list;
  }

  method InsertSorted(s: seq<string>, x: string) returns (r: seq<string>)
    requires Sorted(s)
    ensures Sorted(r) && multiset(r) == multiset(s) + multiset{x}
  {
    hide Leq;
    var k := |s|;
    while k > 0 && !Leq(s[k - 1], x)
      invariant 0 <= k <= |s|
      invariant forall j | k <= j < |s| :: Leq(x, s[j])
    {
      LeqTotal(s[k - 1], x);
      k := k - 1;
    }
    r := s[..k] + [x] + s[k..];
    forall j | 0 <= j < k
      ensures Leq(s[j], x)
    {
      LeqTotal(s[j], s[j]);
      LeqTransitive(s[j], s[k - 1], x);
    }
    assert s == s[..k] + s[k..];
  }

  method ReadyAddresses(slices: seq<Slice>) returns (ips: seq<string>)
    ensures Sorted(ips) && multiset(ips) == multiset(Addresses(Flat(slices)))
  {
    ips := [];
    for i := 0 to |slices|
      invariant ips == Addresses(Flat(slices[..i]))
    {
      var es := slices[i].endpoints;
      ghost var before := ips;
      for j := 0 to |es|
        invariant ips == before + Addresses(es[..j])
      {
        assert es[..j + 1][..j] == es[..j];
        if es[j].ready.Some? && !es[j].ready.value {
          continue;
        }
        ips := ips + es[j].addresses;
        assert before + (Addresses(es[..j]) + es[j].addresses) == ips;
      }
      assert es[..|es|] == es && slices[..i + 1][..i] == slices[..i];
      AddressesAppend(Flat(slices[..i]), es);
    }
    assert slices[..|slices|] == slices;
    ips := SortStrings(ips);
  }

  // ----- The list depends only on the bag of endpoints -----

  lemma {:induction false} SameBagSameAddresses(es: seq<Endpoint>, fs: seq<Endpoint>)
    requires multiset(es) == multiset(fs)
    ensures multiset(Addresses(es)) == multiset(Addresses(fs))
    decreases |es|
  {
    hide Addresses;
    SameBagSameLength(es, fs);
    if es == [] {
      assert es == fs;
    } else {
      var n := |es| - 1;
      assert es[n] in multiset(es);
      var k :| 0 <= k < |fs| && fs[k] == es[n];
      TakenOut(es, n);
      TakenOut(fs, k);
      AddressesTakenOut(es, n);
      AddressesTakenOut(fs, k);
      SameBagSameAddresses(Without(es, n), Without(fs, k));
    }
  }

  function Without(es: seq<Endpoint>, k: nat): (rest: seq<Endpoint>)
    requires k < |es|
    ensures |rest| == |es| - 1
  {
    es[..k] + es[k + 1..]
  }

  lemma TakenOut(es: seq<Endpoint>, k: nat)
    requires k < |es|
    ensures multiset(Without(es, k)) == multiset(es) - multiset{es[k]}
  {
    assert es == es[..k] + [es[k]] + es[k + 1..];
  }

  lemma AddressesTakenOut(es: seq<Endpoint>, k: nat)
    requires k < |es|
    ensures multiset(Addresses(es)) == multiset(Addresses(Without(es, k))) + multiset(Addresses([es[k]]))
  {
    hide Addresses;
    var f, x, b := es[..k], [es[k]], es[k + 1..];
    assert es == f + x + b;
    AddressesAppend(f + x, b);
    AddressesAppend(f, x);
    AddressesAppend(f, b);
    MiddleOut(Addresses(f), Addresses(x), Addresses(b));
  }

  lemma MiddleOut(f: seq<string>, x: seq<string>, b: seq<string>)
    ensures multiset(f + x + b) == multiset(f + b) + multiset(x)
  {}

  /** However endpoints are ordered and spread over slices, the result is the same list. */
  lemma ListIsCanonical(slices: seq<Slice>, slices': seq<Slice>, ips: seq<string>, ips': seq<string>)
    requires multiset(Flat(slices)) == multiset(Flat(slices'))
    requires Sorted(ips) && multiset(ips) == multiset(Addresses(Flat(slices)))
    requires Sorted(ips') && multiset(ips') == multiset(Addresses(Flat(slices')))
    ensures ips == ips'
  {
    SameBagSameAddresses(Flat(slices), Flat(slices'));
    SortedIsUnique(ips, ips');
  }

  // ----- The cache -----

  /** A slice in the informer's store is known by namespace and name. */
  datatype Key = Key(ns: string, name: string)

  type Store = map<Key, Slice>

  datatype Event = Put(key: Key, slice: Slice) | Remove(key: Key)

  function Handle(store: Store, e: Event): Store {
    match e
    case Put(k, s) => store[k := s]
    case Remove(k) => store - {k}
  }

  function HandleAll(store: Store, events: seq<Event>): Store
    decreases |events|
  {
    if events == [] then store else HandleAll(Handle(store, events[0]), events[1..])
  }

  /** The lister names every slice of the namespace once, in whatever order it likes. */
  ghost predicate Lists(store: Store, ns: string, names: seq<string>) {
    && (forall i, j | 0 <= i < j < |names| :: names[i] != names[j])
    && (forall name :: name in names <==> Key(ns, name) in store)
  }

  function SliceAt(store: Store, ns: string, name: string): Slice {
    if Key(ns, name) in store then store[Key(ns, name)] else Slice([])
  }

  function Chosen(store: Store, ns: string, names: seq<string>): seq<Slice> {
    if names == [] then [] else Chosen(store, ns, names[..|names| - 1]) + [SliceAt(store, ns, names[|names| - 1])]
  }

  /** How often an address is given by endpoints that are not marked unready. */
  function TimesGiven(es: seq<Endpoint>, ip: string): nat {
    if es == [] then 0
    else TimesGiven(es[1..], ip) + if es[0].ready == Some(false) then 0 else multiset(es[0].addresses)[ip]
  }

  function TimesInAll(store: Store, ns: string, names: seq<string>, ip: string): nat
    requires forall name | name in names :: Key(ns, name) in store
  {
    if names == [] then 0
    else TimesInAll(store, ns, names[1..], ip) + TimesGiven(store[Key(ns, names[0])].endpoints, ip)
  }

  /** Some slice of the namespace has an endpoint, not marked unready, with this address. */
  ghost predicate Offered(store: Store, ns: string, ip: string) {
    exists name, i ::
      && Key(ns, name) in store && 0 <= i < |store[Key(ns, name)].endpoints|
      && store[Key(ns, name)].endpoints[i].ready != Some(false) && ip in store[Key(ns, name)].endpoints[i].addresses
  }

  /** The result has exactly the addresses on offer in the namespace, each as often as it is given, in order. */
  method EndpointsOf(store: Store, ns: string, names: seq<string>) returns (ips: seq<string>)
    requires Lists(store, ns, names)
    ensures Sorted(ips) && multiset(ips) == multiset(Addresses(Flat(Chosen(store, ns, names))))
    ensures forall ip :: multiset(ips)[ip] == TimesInAll(store, ns, names, ip)
    ensures forall ip :: ip in ips <==> Offered(store, ns, ip)
  {
    hide Chosen, Addresses, Flat, TimesInAll, Offered;
    ips := ReadyAddresses(Chosen(store, ns, names));
    forall ip
      ensures multiset(ips)[ip] == TimesInAll(store, ns, names, ip) && (ip in ips <==> Offered(store, ns, ip))
    {
      ChosenCount(store, ns, names, ip);
      OfferedIsGiven(store, ns, names, ip);
      assert ip in ips <==> ip in multiset(ips);
    }
  }

  lemma {:induction false} AddressCount(es: seq<Endpoint>, ip: string)
    ensures multiset(Addresses(es))[ip] == TimesGiven(es, ip)
  {
    if es != [] {
      AddressCount(es[1..], ip);
      AddressesAppend([es[0]], es[1..]);
      assert es == [es[0]] + es[1..];
      assert [es[0]][..0] == [] && Addresses([es[0]]) == if Serves(es[0]) then es[0].addresses else [];
    }
  }

  lemma {:induction false} ChosenCount(store: Store, ns: string, names: seq<string>, ip: string)
    requires forall name | name in names :: Key(ns, name) in store
    ensures multiset(Addresses(Flat(Chosen(store, ns, names))))[ip] == TimesInAll(store, ns, names, ip)
  {
    if names != [] {
      var first, rest := Chosen(store, ns, [names[0]]), Chosen(store, ns, names[1..]);
      ChosenCount(store, ns, names[1..], ip);
      assert names == [names[0]] + names[1..];
      ChosenAppend(store, ns, [names[0]], names[1..]);
      FlatAppend(first, rest);
      AddressesAppend(Flat(first), Flat(rest));
      OneChosen(store, ns, names[0]);
      AddressCount(store[Key(ns, names[0])].endpoints, ip);
    }
  }

  lemma OneChosen(store: Store, ns: string, name: string)
    requires Key(ns, name) in store
    ensures Flat(Chosen(store, ns, [name])) == store[Key(ns, name)].endpoints
  {
    var s := store[Key(ns, name)];
    assert [name][..0] == [] && Chosen(store, ns, [name]) == [s];
    assert [s][..0] == [];
  }

  lemma {:induction false} GivenIsThere(es: seq<Endpoint>, ip: string)
    ensures TimesGiven(es, ip) > 0
       <==> exists i :: 0 <= i < |es| && es[i].ready != Some(false) && ip in es[i].addresses
  {
    if es != [] {
      GivenIsThere(es[1..], ip);
      if i :| 0 <= i < |es| - 1 && es[1..][i].ready != Some(false) && ip in es[1..][i].addresses {
        assert es[i + 1] == es[1..][i];
      }
      if i :| 0 <= i < |es| && es[i].ready != Some(false) && ip in es[i].addresses {
        if i > 0 { assert es[1..][i - 1] == es[i]; }
      }
    }
  }

  lemma {:induction false} AllIsThere(store: Store, ns: string, names: seq<string>, ip: string)
    requires forall name | name in names :: Key(ns, name) in store
    ensures TimesInAll(store, ns, names, ip) > 0
       <==> exists name :: name in names && TimesGiven(store[Key(ns, name)].endpoints, ip) > 0
  {
    if names != [] {
      assert names == [names[0]] + names[1..];
      AllIsThere(store, ns, names[1..], ip);
    }
  }

  lemma OfferedIsGiven(store: Store, ns: string, names: seq<string>, ip: string)
    requires Lists(store, ns, names)
    ensures Offered(store, ns, ip) <==> TimesInAll(store, ns, names, ip) > 0
  {
    hide TimesInAll, TimesGiven;
    AllIsThere(store, ns, names, ip);
    if TimesInAll(store, ns, names, ip) > 0 {
      var name :| name in names && TimesGiven(store[Key(ns, name)].endpoints, ip) > 0;
      GivenIsThere(store[Key(ns, name)].endpoints, ip);
    }
    if Offered(store, ns, ip) {
      var name, i :| Key(ns, name) in store && 0 <= i < |store[Key(ns, name)].endpoints|
        && store[Key(ns, name)].endpoints[i].ready != Some(false) && ip in store[Key(ns, name)].endpoints[i].addresses;
      assert name in names;
      GivenIsThere(store[Key(ns, name)].endpoints, ip);
    }
  }

  lemma {:induction false} FlatAppend(a: seq<Slice>, b: seq<Slice>)
    ensures Flat(a + b) == Flat(a) + Flat(b)
  {
    if b == [] {
      assert a + b == a;
    } else {
      var n := |b| - 1;
      FlatAppend(a, b[..n]);
      assert (a + b)[..|a| + n] == a + b[..n] && (a + b)[|a| + n] == b[n];
      assert Flat(a) + Flat(b[..n]) + b[n].endpoints == Flat(a) + (Flat(b[..n]) + b[n].endpoints);
    }
  }

  lemma {:induction false} ChosenAppend(store: Store, ns: string, a: seq<string>, b: seq<string>)
    ensures Chosen(store, ns, a + b) == Chosen(store, ns, a) + Chosen(store, ns, b)
  {
    if b == [] {
      assert a + b == a;
    } else {
      var n := |b| - 1;
      assert (a + b)[..|a| + n] == a + b[..n];
      ChosenAppend(store, ns, a, b[..n]);
    }
  }

  /** Two listings of the same names give the same bag of endpoints. */
  lemma {:induction false} AnyListing(store: Store, ns: string, names: seq<string>, names': seq<string>)
    requires multiset(names) == multiset(names')
    ensures multiset(Flat(Chosen(store, ns, names))) == multiset(Flat(Chosen(store, ns, names')))
  {
    hide Chosen, Flat;
    assert |names| == |multiset(names)| == |multiset(names')| == |names'|;
    if names == [] {
      assert names' == [];
    } else {
      var n := |names| - 1;
      var front, back := TakeOut(names, names', n);
      AnyListing(store, ns, names[..n], front + back);
      Regroup(store, ns, front, names[n], back);
      Regroup(store, ns, names[..n], names[n], []);
      assert names[..n] + [names[n]] + [] == names && names[..n] + [] == names[..n];
    }
  }

  lemma TakeOut(names: seq<string>, names': seq<string>, n: nat) returns (front: seq<string>, back: seq<string>)
    requires |names| == n + 1 && multiset(names) == multiset(names')
    ensures names' == front + [names[n]] + back && multiset(names[..n]) == multiset(front + back)
  {
    assert names == names[..n] + [names[n]];
    assert names[n] in multiset(names');
    var k :| 0 <= k < |names'| && names'[k] == names[n];
    front, back := names'[..k], names'[k + 1..];
    assert names' == front + [names[n]] + back;
    assert multiset(names[..n]) == multiset(names) - multiset{names[n]};
    assert multiset(front + back) == multiset(names') - multiset{names[n]};
  }

  lemma Regroup(store: Store, ns: string, front: seq<string>, x: string, back: seq<string>)
    ensures multiset(Flat(Chosen(store, ns, front + [x] + back)))
         == multiset(Flat(Chosen(store, ns, front + back))) + multiset(SliceAt(store, ns, x).endpoints)
  {
    ChosenAppend(store, ns, front + [x], back);
    ChosenAppend(store, ns, front, [x]);
    ChosenAppend(store, ns, front, back);
    var f, b, s := Chosen(store, ns, front), Chosen(store, ns, back), SliceAt(store, ns, x);
    assert Chosen(store, ns, [x]) == [s];
    FlatAppend(f + [s], b);
    FlatAppend(f, [s]);
    FlatAppend(f, b);
    assert Flat([s]) == s.endpoints;
  }

  lemma {:induction false} SameNames(a: seq<string>, b: seq<string>)
    requires forall i, j | 0 <= i < j < |a| :: a[i] != a[j]
    requires forall i, j | 0 <= i < j < |b| :: b[i] != b[j]
    requires forall x :: x in a <==> x in b
    ensures multiset(a) == multiset(b)
  {
    forall x: string
      ensures multiset(a)[x] == multiset(b)[x]
    {
      CountOnce(a, x);
      CountOnce(b, x);
    }
  }

  lemma {:induction false} CountOnce(a: seq<string>, x: string)
    requires forall i, j | 0 <= i < j < |a| :: a[i] != a[j]
    ensures multiset(a)[x] == if x in a then 1 else 0
  {
    if a != [] {
      assert a == [a[0]] + a[1..];
      CountOnce(a[1..], x);
    }
  }

  /** The store holds for each key what the last event about it said, and otherwise what was there. */
  lemma {:induction false} LastEventWins(store: Store, events: seq<Event>, k: Key)
    ensures var after := HandleAll(store, events);
            && ((forall i | 0 <= i < |events| :: events[i].key != k) ==>
                  (k in after <==> k in store) && (k in store ==> after[k] == store[k]))
            && (forall i | && 0 <= i < |events| && events[i].key == k
                           && (forall j | i < j < |events| :: events[j].key != k) ::
                  (k in after <==> events[i].Put?) && (events[i].Put? ==> after[k] == events[i].slice))
    decreases |events|
  {
    if events != [] {
      var rest := events[1..];
      LastEventWins(Handle(store, events[0]), rest, k);
      assert forall i | 0 <= i < |rest| :: rest[i] == events[i + 1];
      if forall i | 0 <= i < |rest| :: rest[i].key != k {
        assert forall i | 1 <= i < |events| :: events[i] == rest[i - 1];
      } else {
        forall i | 0 <= i < |events| && events[i].key == k && (forall j | i < j < |events| :: events[j].key != k)
          ensures i > 0 && rest[i - 1] == events[i] && forall j | i - 1 < j < |rest| :: rest[j].key != k
        {}
      }
    }
  }

  lemma {:induction false} OtherNamespaceStays(store: Store, events: seq<Event>, ns: string)
    requires forall i | 0 <= i < |events| :: events[i].key.ns != ns
    ensures forall name :: Key(ns, name) in HandleAll(store, events) <==> Key(ns, name) in store
    ensures forall name :: SliceAt(HandleAll(store, events), ns, name) == SliceAt(store, ns, name)
    decreases |events|
  {
    if events != [] {
      OtherNamespaceStays(Handle(store, events[0]), events[1..], ns);
    }
  }

  lemma {:induction false} ChosenStays(store: Store, store': Store, ns: string, names: seq<string>)
    requires forall name :: SliceAt(store', ns, name) == SliceAt(store, ns, name)
    ensures Chosen(store, ns, names) == Chosen(store', ns, names)
  {
    if names != [] {
      ChosenStays(store, store', ns, names[..|names| - 1]);
    }
  }

  /** Events of other namespaces, in any number, never change a namespace's list, however the lister orders it. */
  lemma OtherNamespacesDoNotMatter(store: Store, events: seq<Event>, ns: string,
                                   names: seq<string>, names': seq<string>, ips: seq<string>, ips': seq<string>)
    requires forall i | 0 <= i < |events| :: events[i].key.ns != ns
    requires Lists(store, ns, names) && Lists(HandleAll(store, events), ns, names')
    requires Sorted(ips) && multiset(ips) == multiset(Addresses(Flat(Chosen(store, ns, names))))
    requires Sorted(ips') && multiset(ips') == multiset(Addresses(Flat(Chosen(HandleAll(store, events), ns, names'))))
    ensures ips == ips'
  {
    var store' := HandleAll(store, events);
    OtherNamespaceStays(store, events, ns);
    ChosenStays(store, store', ns, names');
    SameNames(names, names');
    AnyListing(store, ns, names, names');
    ListIsCanonical(Chosen(store, ns, names), Chosen(store, ns, names'), ips, ips');
  }
}
