/**
  The cluster side of a tenant: the objects that control_plane/app/k8s_resources.py
  creates in one namespace, the API calls it makes on them, and the two functions
  that classify a status read.
 */
module Kubernetes {
  import opened Options

  // ----- The nine create-or-409 objects, numbered in creation order; the ninth is the viewer's role binding -----

  const NAMESPACE := 0
  const QUOTA := 1
  const LIMIT_RANGE := 2
  const NETWORK_POLICY := 3
  const SECRET := 4
  const BUILD_ACCOUNT := 5
  const VIEWER_ACCOUNT := 6
  const VIEWER_ROLE := 7

  /** ensure_tenant_namespace creates the first six, ensure_tenant_rbac the other three. */
  const HARDENING := 6
  const ALL_OBJECTS := 9

  datatype Resources = Resources(cpuMilli: nat, memoryMi: nat)

  datatype EgressRule = EgressRule(cidr: string, port: nat, protocols: seq<string>)

  datatype Manifest =
    | NamespaceManifest(podSecurityEnforce: string)
    | QuotaManifest(requests: Resources, limits: Resources, pods: nat)
    | LimitRangeManifest(default: Resources, defaultRequest: Resources)
    | NetworkPolicyManifest(ingress: seq<string>, egress: seq<EgressRule>)
    | SecretManifest(secretType: string)
    | AccountManifest(pullSecret: Option<string>)
    | RoleManifest(resources: seq<string>, verbs: seq<string>)
    | BindingManifest(role: string, account: string)

  const REGISTRY_SECRET := "tenant-registry-credentials"
  const BUILD_ACCOUNT_NAME := "tenant-build-sa"
  const VIEWER_ACCOUNT_NAME := "tenant-viewer-sa"
  const VIEWER_ROLE_NAME := "tenant-viewer-role"

  const QUOTA_REQUESTS := Resources(2000, 4096)
  const QUOTA_LIMITS := Resources(4000, 8192)
  const QUOTA_PODS := 20
  const CONTAINER_REQUESTS := Resources(100, 128)
  const CONTAINER_LIMITS := Resources(500, 512)

  /** Egress of the default-deny policy: nothing, or DNS at the looked-up address only. */
  function Egress(dns: Option<string>): seq<EgressRule> {
    if dns.Some? && dns.value != "" then [EgressRule(dns.value + "/32", 53, ["UDP", "TCP"])] else []
  }

  function ManifestFor(k: nat, dns: Option<string>): Manifest
    requires k < ALL_OBJECTS
  {
    if k == NAMESPACE then NamespaceManifest("restricted")
    else if k == QUOTA then QuotaManifest(QUOTA_REQUESTS, QUOTA_LIMITS, QUOTA_PODS)
    else if k == LIMIT_RANGE then LimitRangeManifest(CONTAINER_LIMITS, CONTAINER_REQUESTS)
    else if k == NETWORK_POLICY then NetworkPolicyManifest([], Egress(dns))
    else if k == SECRET then SecretManifest("kubernetes.io/dockerconfigjson")
    else if k == BUILD_ACCOUNT then AccountManifest(Some(REGISTRY_SECRET))
    else if k == VIEWER_ACCOUNT then AccountManifest(None)
    else if k == VIEWER_ROLE then RoleManifest(["pods", "pods/log"], ["get", "list"])
    else BindingManifest(VIEWER_ROLE_NAME, VIEWER_ACCOUNT_NAME)
  }

  /**
    What an isolated namespace must hold at position k, spelled out: Pod Security
    `restricted`, 2 CPU and 4 Gi of requests, 4 CPU and 8 Gi of limits and 20 pods, half a
    CPU and 512 Mi as container default, a tenth and 128 Mi as default request, no ingress
    and no egress but DNS, registry credentials, an account that pulls with them, and a
    viewer that may get and list pods and their logs.
   */
  predicate Isolates(k: nat, m: Manifest, dns: Option<string>) {
    match k
    case 0 => m == NamespaceManifest("restricted")
    case 1 => m == QuotaManifest(Resources(2000, 4096), Resources(4000, 8192), 20)
    case 2 => m == LimitRangeManifest(Resources(500, 512), Resources(100, 128))
    case 3 =>
      && m.NetworkPolicyManifest? && m.ingress == []
      && (m.egress == [] <==> dns in {None, Some("")})
      && (dns !in {None, Some("")} ==> m.egress == [EgressRule(dns.value + "/32", 53, ["UDP", "TCP"])])
    case 4 => m == SecretManifest("kubernetes.io/dockerconfigjson")
    case 5 => m == AccountManifest(Some("tenant-registry-credentials"))
    case 6 => m == AccountManifest(None)
    case 7 => m == RoleManifest(["pods", "pods/log"], ["get", "list"])
    case 8 => m == BindingManifest("tenant-viewer-role", "tenant-viewer-sa")
    case _ => false
  }

  /** What the code writes is what isolation asks for, with the DNS address it was given. */
  lemma ManifestsIsolate(k: nat, dns: Option<string>)
    requires k < ALL_OBJECTS
    ensures Isolates(k, ManifestFor(k, dns), dns)
  {}

  /** m is what isolation asks for at position k, for some answer to the DNS lookup. */
  ghost predicate IsManifest(k: nat, m: Manifest) {
    exists dns :: Isolates(k, m, dns)
  }

  // ----- Workloads -----

  datatype Source = Source(gitUrl: string, revision: string, subPath: Option<string>)

  datatype ImageSpec = ImageSpec(tag: string, account: string, source: Source)

  datatype Condition = Condition(kind: string, status: string, message: Option<string>)

  datatype ImageStatus = ImageStatus(conditions: seq<Condition>, latestImage: Option<string>)

  datatype KpackImage = KpackImage(spec: ImageSpec, status: ImageStatus)

  /** Everything in the pod template except the image. */
  datatype PodTemplate = PodTemplate(
    account: string, automountToken: bool, runAsNonRoot: bool, privilegeEscalation: bool,
    drop: seq<string>, seccomp: string, port: nat, requests: Resources, limits: Resources)

  const TENANT_TEMPLATE := PodTemplate(
    BUILD_ACCOUNT_NAME, false, true, false, ["ALL"], "RuntimeDefault", 8080, CONTAINER_REQUESTS, CONTAINER_LIMITS)

  /** The one Deployment `tenant-app`; the image is what a build row recorded. */
  datatype App = App(image: Option<string>, replicas: int, template: PodTemplate)

  datatype Namespace = Namespace(
    objects: map<nat, Manifest>, images: map<string, KpackImage>, app: Option<App>, service: bool)

  const EMPTY := Namespace(map[], map[], None, false)

  /** The objects in a namespace; a namespace nobody wrote to holds none. */
  function Look(cluster: map<string, Namespace>, ns: string): Namespace {
    if ns in cluster then cluster[ns] else EMPTY
  }

  // ----- API calls -----

  datatype Reply = Done | Conflict | NotFound

  /** POST of the k-th create-or-409 object. */
  function CreateObject(n: Namespace, k: nat, m: Manifest): (Namespace, Reply) {
    if k != NAMESPACE && NAMESPACE !in n.objects then (n, NotFound)
    else if k in n.objects then (n, Conflict)
    else (n.(objects := n.objects[k := m]), Done)
  }

  function CreateImage(n: Namespace, name: string, spec: ImageSpec): (Namespace, Reply) {
    if NAMESPACE !in n.objects then (n, NotFound)
    else if name in n.images then (n, Conflict)
    else (n.(images := n.images[name := KpackImage(spec, ImageStatus([], None))]), Done)
  }

  function CreateApp(n: Namespace, image: Option<string>, replicas: int): (Namespace, Reply) {
    if NAMESPACE !in n.objects then (n, NotFound)
    else if n.app.Some? then (n, Conflict)
    else (n.(app := Some(App(image, replicas, TENANT_TEMPLATE))), Done)
  }

  /** The strategic merge patch names only the replica count and the image of container "app". */
  function PatchApp(n: Namespace, image: Option<string>, replicas: int): (Namespace, Reply) {
    if n.app.None? then (n, NotFound)
    else (n.(app := Some(n.app.value.(image := image, replicas := replicas))), Done)
  }

  function CreateService(n: Namespace): (Namespace, Reply) {
    if NAMESPACE !in n.objects then (n, NotFound)
    else if n.service then (n, Conflict)
    else (n.(service := true), Done)
  }

  // ----- Status reads -----

  datatype Verdict = Unknown | Ready(latestImage: Option<string>) | Broken(error: string)

  function FirstOfKind(conditions: seq<Condition>, kind: string): Option<Condition> {
    if conditions == [] then None
    else if conditions[0].kind == kind then Some(conditions[0])
    else FirstOfKind(conditions[1..], kind)
  }

  /** What the status of an Image says. */
  function VerdictOf(status: ImageStatus): Verdict {
    match FirstOfKind(status.conditions, "Ready")
    case None => Unknown
    case Some(c) =>
      if c.status == "True" then Ready(status.latestImage)
      else if c.status == "False" then Broken(if c.message.Some? then c.message.value else "build failed")
      else Unknown
  }

  /** get_build_status, without the API error that it lets through. */
  function BuildVerdict(n: Namespace, name: string): Verdict {
    if name !in n.images then Unknown else VerdictOf(n.images[name].status)
  }

  /** get_deployment_status: true, false, or still rolling out. */
  function RolloutVerdict(n: Namespace, ready: nat, conditions: seq<Condition>): Option<bool> {
    if n.app.None? then None
    else if ready >= n.app.value.replicas > 0 then Some(true)
    else
      match FirstOfKind(conditions, "Progressing")
      case Some(c) => if c.status == "False" then Some(false) else None
      case None => None
  }

  // ----- What a status read means -----

  /** Condition i is the first of its kind. */
  predicate IsFirst(conditions: seq<Condition>, kind: string, i: nat) {
    i < |conditions| && conditions[i].kind == kind && forall j | 0 <= j < i :: conditions[j].kind != kind
  }

  lemma {:induction false} FirstOfKindMeans(conditions: seq<Condition>, kind: string)
    ensures FirstOfKind(conditions, kind) == None <==> forall i | 0 <= i < |conditions| :: conditions[i].kind != kind
    ensures forall i: nat | IsFirst(conditions, kind, i) :: FirstOfKind(conditions, kind) == Some(conditions[i])
    ensures FirstOfKind(conditions, kind).Some? ==> exists i: nat :: IsFirst(conditions, kind, i)
  {
    if conditions != [] {
      var rest := conditions[1..];
      FirstOfKindMeans(rest, kind);
      if conditions[0].kind == kind {
        assert IsFirst(conditions, kind, 0);
      } else {
        forall i: nat | IsFirst(conditions, kind, i)
          ensures FirstOfKind(conditions, kind) == Some(conditions[i])
        {
          assert IsFirst(rest, kind, i - 1);
        }
        if FirstOfKind(rest, kind).Some? {
          var i: nat :| IsFirst(rest, kind, i);
          assert IsFirst(conditions, kind, i + 1);
        }
      }
    }
  }

  /** The first condition of the kind has the given status. */
  ghost predicate FirstSays(conditions: seq<Condition>, kind: string, status: string) {
    exists i: nat :: IsFirst(conditions, kind, i) && conditions[i].status == status
  }

  /** The first Ready condition says "False", with this message or, without one, the default. */
  ghost predicate FailsWith(conditions: seq<Condition>, error: string) {
    exists i: nat :: IsFirst(conditions, "Ready", i) && conditions[i].status == "False"
      && conditions[i].message in {None, Some(error)} && (conditions[i].message == None ==> error == "build failed")
  }

  /** A build is ready, or failed with this error, exactly as the first Ready condition of its Image says. */
  lemma BuildVerdictMeans(n: Namespace, name: string, image: Option<string>, error: string)
    ensures BuildVerdict(n, name) == Broken(error)
       <==> name in n.images && FailsWith(n.images[name].status.conditions, error)
    ensures BuildVerdict(n, name) == Ready(image)
       <==> && name in n.images && n.images[name].status.latestImage == image
            && FirstSays(n.images[name].status.conditions, "Ready", "True")
    ensures BuildVerdict(n, name) == Unknown
       <==> name in n.images ==>
              && !FirstSays(n.images[name].status.conditions, "Ready", "True")
              && !FirstSays(n.images[name].status.conditions, "Ready", "False")
  {
    if name in n.images { FirstOfKindMeans(n.images[name].status.conditions, "Ready"); }
  }

  /**
    A rollout is done exactly when a positive count is ready, failed exactly when it is not
    done and the first Progressing condition says "False", and open otherwise.
   */
  lemma RolloutVerdictMeans(n: Namespace, ready: nat, conditions: seq<Condition>)
    ensures var done := n.app.Some? && n.app.value.replicas > 0 && ready >= n.app.value.replicas;
            var failed := n.app.Some? && !done && FirstSays(conditions, "Progressing", "False");
            && (RolloutVerdict(n, ready, conditions) == Some(true) <==> done)
            && (RolloutVerdict(n, ready, conditions) == Some(false) <==> failed)
            && (RolloutVerdict(n, ready, conditions) == None <==> !done && !failed)
  {
    FirstOfKindMeans(conditions, "Progressing");
  }

  // ----- Facts every call keeps -----

  /** Objects 0..k-1 are all present. */
  ghost predicate HasFirst(n: Namespace, k: nat) {
    forall i: nat | i < k :: i in n.objects
  }

  /** The objects present are a prefix of the creation order. */
  ghost predicate IsPrefix(n: Namespace) {
    forall i: nat, j: nat | i < j && j in n.objects :: i in n.objects
  }

  ghost predicate Genuine(n: Namespace) {
    forall k: nat | k in n.objects :: IsManifest(k, n.objects[k])
  }

  predicate HasWorkload(n: Namespace) {
    n.images != map[] || n.app.Some? || n.service
  }

  /** Labelled namespace, quota, limit range, network policy, secret and service account. */
  ghost predicate Hardened(n: Namespace) {
    HasFirst(n, HARDENING) && forall k: nat | k < HARDENING :: IsManifest(k, n.objects[k])
  }

  /** What no call ever takes back or rewrites. */
  ghost predicate Grows(n: Namespace, n': Namespace) {
    && (forall k | k in n.objects :: k in n'.objects && n'.objects[k] == n.objects[k])
    && (forall name | name in n.images :: name in n'.images && n'.images[name].spec == n.images[name].spec)
    && (n.app.Some? ==> n'.app.Some? && n'.app.value.template == n.app.value.template)
    && (n.service ==> n'.service)
  }
}
