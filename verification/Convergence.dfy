/** What the create-or-409 sequence and the upsert leave in a namespace, in closed form. */
module Convergence {
  import opened Options
  import opened Kubernetes

  function FirstObjects(k: nat, dns: Option<string>): map<nat, Manifest>
    requires k <= ALL_OBJECTS
  {
    map j: nat | j < k :: ManifestFor(j, dns)
  }

  /** n with the first k objects completed; what was there stays as its first creator wrote it. */
  function Completed(n: Namespace, k: nat, dns: Option<string>): Namespace
    requires k <= ALL_OBJECTS
  {
    n.(objects := FirstObjects(k, dns) + n.objects)
  }

  lemma CompletedNone(n: Namespace, dns: Option<string>)
    ensures Completed(n, 0, dns) == n
  {
    assert Completed(n, 0, dns).objects == n.objects;
  }

  /** One create-or-409 call after the first k extends the completion by one, and cannot miss the namespace. */
  lemma CompletedStep(n: Namespace, k: nat, dns: Option<string>)
    requires k < ALL_OBJECTS
    ensures var (n', reply) := CreateObject(Completed(n, k, dns), k, ManifestFor(k, dns));
            n' == Completed(n, k + 1, dns) && !reply.NotFound?
  {
    hide ManifestFor;
    var (n', reply) := CreateObject(Completed(n, k, dns), k, ManifestFor(k, dns));
    assert n'.objects == Completed(n, k + 1, dns).objects;
  }

  /** Only the network policy looks at the address of the DNS service. */
  lemma OnlyPolicyAsksDns(k: nat, dns: Option<string>, other: Option<string>)
    requires k < ALL_OBJECTS && k != NETWORK_POLICY
    ensures ManifestFor(k, dns) == ManifestFor(k, other)
  {}

  /**
    A complete pass leaves the whole prefix, keeps prefix-closure and everything that was
    there, and a second one, whatever DNS answers it gets, finds nothing to do.
   */
  lemma CompletedConverges(n: Namespace, k: nat, dns: Option<string>, other: Option<string>)
    requires k <= ALL_OBJECTS && IsPrefix(n)
    ensures var n' := Completed(n, k, dns);
            && HasFirst(n', k) && IsPrefix(n') && Grows(n, n')
            && Completed(n', k, other) == n'
            && (Genuine(n) ==> Genuine(n')) && AddsIsolation(n, n', dns)
            && (forall i: nat | i >= k :: i in n'.objects <==> i in n.objects)
  {
    hide ManifestFor, Isolates;
    var n' := Completed(n, k, dns);
    assert Completed(n', k, other).objects == n'.objects;
    CompletedIsolates(n, k, dns);
    if Genuine(n) {
      forall i: nat | i in n'.objects
        ensures IsManifest(i, n'.objects[i])
      {
        if i !in n.objects { assert Isolates(i, n'.objects[i], dns); }
      }
    }
  }

  /** Whatever n' has and n has not is what isolation asks for. */
  ghost predicate AddsIsolation(n: Namespace, n': Namespace, dns: Option<string>) {
    forall i: nat | i in n'.objects && i !in n.objects :: Isolates(i, n'.objects[i], dns)
  }

  lemma CompletedIsolates(n: Namespace, k: nat, dns: Option<string>)
    requires k <= ALL_OBJECTS
    ensures AddsIsolation(n, Completed(n, k, dns), dns)
  {
    hide ManifestFor, Isolates;
    var n' := Completed(n, k, dns);
    forall i: nat | i in n'.objects && i !in n.objects
      ensures Isolates(i, n'.objects[i], dns)
    {
      ManifestsIsolate(i, dns);
    }
  }

  lemma CompletedIsNoOp(n: Namespace, k: nat, dns: Option<string>)
    requires k <= ALL_OBJECTS && HasFirst(n, k)
    ensures Completed(n, k, dns) == n
  {
    hide ManifestFor;
    assert Completed(n, k, dns).objects == n.objects;
  }

  lemma CompletedHasNamespace(n: Namespace, k: nat, dns: Option<string>)
    requires 0 < k <= ALL_OBJECTS
    ensures NAMESPACE in Completed(n, k, dns).objects && Completed(n, k, dns).images == n.images
  {}

  function WithImage(n: Namespace, name: string, spec: ImageSpec): Namespace {
    n.(images := n.images[name := KpackImage(spec, ImageStatus([], None))])
  }

  lemma ImageIsCreated(n: Namespace, name: string, spec: ImageSpec)
    requires NAMESPACE in n.objects && name !in n.images
    ensures CreateImage(n, name, spec) == (WithImage(n, name, spec), Done)
  {}

  /** The app after create, or patch on conflict. */
  function Upserted(app: Option<App>, image: Option<string>, replicas: int): App {
    App(image, replicas, if app.Some? then app.value.template else TENANT_TEMPLATE)
  }

  /** The namespace after create_tenant_deployment. */
  function Deployed(n: Namespace, image: Option<string>, replicas: int): Namespace {
    n.(app := Some(Upserted(n.app, image, replicas)), service := true)
  }

  /** After any sequence of deploys: the last image and count, the first template. */
  function UpsertedAll(app: Option<App>, deploys: seq<(Option<string>, int)>): Option<App> {
    if deploys == [] then app
    else
      var n := |deploys| - 1;
      Some(Upserted(UpsertedAll(app, deploys[..n]), deploys[n].0, deploys[n].1))
  }

  lemma {:induction false} UpsertsKeepTemplate(deploys: seq<(Option<string>, int)>)
    requires deploys != []
    ensures UpsertedAll(None, deploys) == Some(App(deploys[|deploys| - 1].0, deploys[|deploys| - 1].1, TENANT_TEMPLATE))
  {
    var n := |deploys| - 1;
    if n > 0 { UpsertsKeepTemplate(deploys[..n]); }
  }
}
