/**
  The control plane as a transition system: a database, a cluster, and the
  request handlers and background pollers that work on both. A handler is split at
  each commit and at each Kubernetes call, so the steps of any number of handlers
  and pollers interleave freely, and any of them may fail or die between two steps.
  Every choice the environment makes is part of the step, so Apply is a function;
  a step that is not possible in a state leaves it unchanged.
 */
module ControlPlane {
  import opened Options
  import opened Text
  import opened Naming
  import opened Kubernetes

  const REGISTRY := "registry"
  const BUILD_INTERVAL := 5
  const BUILD_TIMEOUT := 900
  const DEPLOY_INTERVAL := 5
  const DEPLOY_TIMEOUT := 180
  const MAX_REPLICAS := 8

  // ----- Database -----

  datatype TenantRow = TenantRow(namespace: string, name: string, active: bool)

  datatype KeyRow = KeyRow(tenant: nat, hash: string, name: string, revoked: bool)

  datatype BuildStatus = Queued | Building | Succeeded | BuildFailed

  datatype BuildRow = BuildRow(
    tenant: nat, source: Source, status: BuildStatus, imageTag: Option<string>, error: Option<string>,
    startedAt: Option<int>, endedAt: Option<int>)

  datatype DeployStatus = Pending | Deploying | Running | DeployFailed | Stopped

  datatype DeployRow = DeployRow(tenant: nat, build: nat, status: DeployStatus, replicas: int)

  datatype Registration = Registration(tenant: nat, secret: string, active: bool)

  /** The body of a webhook, before it is printed as JSON. */
  datatype Payload =
    | BuildPayload(tenant: nat, build: nat, buildStatus: BuildStatus, imageTag: Option<string>, error: Option<string>)
    | DeployPayload(tenant: nat, deployment: nat, deployStatus: DeployStatus)

  /**
    `timestamp` is signed together with the body; `secret` is what it was signed with, and
    stands for the stored signature, which is the MAC under it.
   */
  datatype Delivery = Delivery(
    tenant: nat, registration: nat, event: string, payload: Payload, timestamp: nat, secret: string)

  /** Each table has its own increasing key sequence; a key taken is never given out again. */
  datatype Database = Database(
    tenants: map<nat, TenantRow>, nextTenant: nat,
    keys: map<nat, KeyRow>, nextKey: nat,
    builds: map<nat, BuildRow>, nextBuild: nat,
    deployments: map<nat, DeployRow>, nextDeployment: nat,
    registrations: map<nat, Registration>, nextRegistration: nat,
    deliveries: map<nat, Delivery>, nextDelivery: nat)

  // ----- Handlers and pollers -----

  datatype Request =
    | NewBuild(source: Source)
    | NewDeployment(build: nat, replicas: int)
    | Kubeconfig
    | NewKey(hash: string, name: string)
    | RevokeKey(key: nat)
    | Register(secret: string)

  datatype BuildPc =
    | Ensuring(k: nat) | CreatingImage | CommittingBuilding | RefreshingBuilding | FailingBuild(error: string)

  datatype BuildPhase = BuildPolling | BuildResolving(verdict: Verdict) | BuildCommitting(verdict: Verdict)
                      | BuildTimingOut | BuildCommittingTimeout

  datatype DeployPc =
    | CreatingApp | PatchingApp | CreatingService | CommittingDeploying | RefreshingDeploying | FailingDeploy

  datatype DeployPhase = DeployPolling | DeployResolving(running: bool) | DeployCommitting(running: bool)
                       | DeployTimingOut | DeployCommittingTimeout

  /** `tenant` is the tenant the work is done for; `ns` is the namespace string passed along. */
  datatype Worker =
    | TenantTransaction(tenant: nat)
    | Admitted(tenant: nat, request: Request)
    | BuildHandler(tenant: nat, ns: string, build: nat, source: Source, buildPc: BuildPc)
    | BuildPoller(tenant: nat, ns: string, build: nat, elapsed: nat, buildPhase: BuildPhase)
    | DeployInserting(tenant: nat, build: nat, image: Option<string>, replicas: int)
    | DeployHandler(tenant: nat, ns: string, deployment: nat, image: Option<string>, replicas: int, deployPc: DeployPc)
    | DeployPoller(tenant: nat, ns: string, deployment: nat, elapsed: nat, deployPhase: DeployPhase)
    | Dispatcher(tenant: nat, event: string, payload: Payload, recipients: Option<seq<nat>>, secrets: map<nat, string>)
    | KubeconfigHandler(tenant: nat, ns: string, k: nat)

  // ----- State -----

  datatype Report = Report(ns: string, image: string, status: ImageStatus)

  /** What has ever happened; nothing reads it, it only serves to state properties of runs. */
  datatype History = History(
    committed: set<nat>,            // tenants ever committed
    buildOwner: map<nat, nat>,      // every build ever inserted, with its tenant
    deployOwner: map<nat, nat>,     // every deployment ever inserted, with its tenant
    reports: set<Report>,           // every status kpack ever wrote on an Image
    recorded: map<nat, Option<string>>)  // the image each build that succeeded recorded

  datatype State = State(db: Database, cluster: map<string, Namespace>, workers: map<nat, Worker>, nextWorker: nat,
                         past: History)

  const INITIAL := State(
    Database(map[], 1, map[], 1, map[], 1, map[], 1, map[], 1, map[], 1), map[], map[], 0,
    History({}, map[], map[], {}, map[]))

  function View(s: State, ns: string): Namespace {
    Look(s.cluster, ns)
  }

  // ----- Steps -----

  /** Rejected: the call had no effect and raised. LostReply: it took effect and raised. */
  datatype Fault = NoFault | Rejected | LostReply

  /** What the environment answers to one worker step. */
  datatype Answer = Answer(
    fault: Fault, error: string, now: int, dns: Option<string>, ready: nat, conditions: seq<Condition>,
    order: seq<nat>, clock: nat -> nat)

  /** A commit or a call takes effect unless it is rejected; it returns normally only without a fault. */
  predicate Lands(a: Answer) {
    !a.fault.Rejected?
  }

  datatype Step =
    | BeginTenant
    | CommitTenant(worker: nat, name: string, hash: string)
    | UpdateTenant(tenant: nat, newName: Option<string>, newActive: Option<bool>)
    | DeleteTenant(tenant: nat)
    | Admit(tenant: nat, hash: string, request: Request)
    | Work(worker: nat, answer: Answer)
    | Crash(worker: nat)
    | KpackReport(ns: string, image: string, status: ImageStatus)

  // ----- Elementary effects -----

  function SetWorker(s: State, w: nat, x: Worker): State {
    s.(workers := s.workers[w := x])
  }

  function EndWorker(s: State, w: nat): State {
    s.(workers := s.workers - {w})
  }

  function Spawn(s: State, x: Worker): State {
    s.(workers := s.workers[s.nextWorker := x], nextWorker := s.nextWorker + 1)
  }

  function PutNamespace(s: State, ns: string, n: Namespace): State {
    if n == View(s, ns) then s else s.(cluster := s.cluster[ns := n])
  }

  /** A success is remembered with the image it recorded. */
  function PutBuild(s: State, b: nat, row: BuildRow): State {
    s.(db := s.db.(builds := s.db.builds[b := row]),
       past := if row.status.Succeeded? then s.past.(recorded := s.past.recorded[b := row.imageTag]) else s.past)
  }

  function PutDeployment(s: State, d: nat, row: DeployRow): State {
    s.(db := s.db.(deployments := s.db.deployments[d := row]))
  }

  function InsertBuild(s: State, row: BuildRow): State {
    var b := s.db.nextBuild;
    s.(db := s.db.(builds := s.db.builds[b := row], nextBuild := b + 1),
       past := s.past.(buildOwner := s.past.buildOwner[b := row.tenant]))
  }

  function InsertDeployment(s: State, row: DeployRow): State {
    var d := s.db.nextDeployment;
    s.(db := s.db.(deployments := s.db.deployments[d := row], nextDeployment := d + 1),
       past := s.past.(deployOwner := s.past.deployOwner[d := row.tenant]))
  }

  /** With which secret, and when, the message to each recipient is signed. */
  datatype Signing = Signing(secrets: map<nat, string>, clock: nat -> nat)

  function RowFor(event: string, p: Payload, r: nat, i: nat, signing: Signing): Delivery {
    Delivery(p.tenant, r, event, p, signing.clock(i), if r in signing.secrets then signing.secrets[r] else "")
  }

  /** One row per recipient, with consecutive keys from `base` on. */
  function DeliveryRows(event: string, p: Payload, to: seq<nat>, signing: Signing, base: nat)
    : (rows: map<nat, Delivery>)
    ensures forall i :: i in rows <==> base <= i < base + |to|
    ensures forall i | i in rows :: rows[i] == RowFor(event, p, to[i - base], i - base, signing)
  {
    if to == [] then map[]
    else
      var n := |to| - 1;
      DeliveryRows(event, p, to[..n], signing, base)[base + n := RowFor(event, p, to[n], n, signing)]
  }

  /** All rows go in with one commit. */
  function InsertDeliveries(s: State, event: string, p: Payload, to: seq<nat>, signing: Signing): State {
    s.(db := s.db.(
        deliveries := s.db.deliveries + DeliveryRows(event, p, to, signing, s.db.nextDelivery),
        nextDelivery := s.db.nextDelivery + |to|))
  }

  function InsertKey(s: State, row: KeyRow): State {
    s.(db := s.db.(keys := s.db.keys[s.db.nextKey := row], nextKey := s.db.nextKey + 1))
  }

  function InsertRegistration(s: State, row: Registration): State {
    var r := s.db.nextRegistration;
    s.(db := s.db.(registrations := s.db.registrations[r := row], nextRegistration := r + 1))
  }

  // ----- Authorisation (control_plane/app/dependencies.py) -----

  /** The key joined with its tenant: right tenant, not revoked, tenant active. */
  predicate KeyOpens(db: Database, k: nat, tenant: nat, hash: string) {
    && k in db.keys && db.keys[k].hash == hash && !db.keys[k].revoked
    && db.keys[k].tenant == tenant && tenant in db.tenants && db.tenants[tenant].active
  }

  predicate Authorised(db: Database, tenant: nat, hash: string) {
    exists k | k in db.keys :: KeyOpens(db, k, tenant, hash)
  }

  datatype Access = Granted | Unauthorised | ForbiddenResource | InactiveTenant

  /** A key that is not revoked, joined with its tenant. */
  predicate Live(db: Database, k: nat, hash: string) {
    k in db.keys && db.keys[k].hash == hash && !db.keys[k].revoked && db.keys[k].tenant in db.tenants
  }

  /** verify_tenant: find the one live key, then compare tenants, then ask whether it is active. */
  ghost function VerifyTenant(db: Database, tenant: nat, hash: string): Access {
    if !exists k :: Live(db, k, hash) then Unauthorised
    else
      var k :| Live(db, k, hash);
      if db.keys[k].tenant != tenant then ForbiddenResource
      else if !db.tenants[tenant].active then InactiveTenant
      else Granted
  }

  predicate HashTaken(db: Database, hash: string) {
    exists k | k in db.keys :: db.keys[k].hash == hash
  }

  predicate NameTaken(db: Database, tenant: nat, name: string) {
    exists k | k in db.keys :: db.keys[k].tenant == tenant && db.keys[k].name == name
  }

  // ----- Building -----

  /** An empty sub-path is left out of the manifest. */
  function SpecOf(tenant: nat, b: nat, source: Source): ImageSpec {
    ImageSpec(REGISTRY + ":" + ImageTag(tenant, b), BUILD_ACCOUNT_NAME,
              source.(subPath := if source.subPath == Some("") then None else source.subPath))
  }

  /** create_build_job_service after the row is committed. */
  function BuildHandlerStep(s: State, w: nat, x: Worker, a: Answer): (s': State)
    requires x.BuildHandler?
    ensures s'.db.tenants == s.db.tenants
  {
    var failing := x.(buildPc := FailingBuild("Failed to start build: " + a.error));
    match x.buildPc
    case Ensuring(k) =>
      if k >= HARDENING then SetWorker(s, w, x.(buildPc := CreatingImage))
      else if a.fault.Rejected? then SetWorker(s, w, failing)
      else
        var (n, reply) := CreateObject(View(s, x.ns), k, ManifestFor(k, a.dns));
        var after := if reply.NotFound? || a.fault.LostReply? then failing else x.(buildPc := Ensuring(k + 1));
        SetWorker(PutNamespace(s, x.ns, n), w, after)
    case CreatingImage =>
      if a.fault.Rejected? then SetWorker(s, w, failing)
      else
        var (n, reply) := CreateImage(View(s, x.ns), ImageName(x.build), SpecOf(x.tenant, x.build, x.source));
        var after := if !reply.Done? || a.fault.LostReply? then failing else x.(buildPc := CommittingBuilding);
        SetWorker(PutNamespace(s, x.ns, n), w, after)
    case CommittingBuilding =>
      if !Lands(a) || x.build !in s.db.builds then SetWorker(s, w, failing)
      else
        var row := s.db.builds[x.build].(status := Building, startedAt := Some(a.now));
        SetWorker(PutBuild(s, x.build, row), w, if a.fault.NoFault? then x.(buildPc := RefreshingBuilding) else failing)
    case RefreshingBuilding =>
      if !a.fault.NoFault? || x.build !in s.db.builds then SetWorker(s, w, failing)
      else if s.db.builds[x.build].status.Building? then
        SetWorker(s, w, BuildPoller(x.tenant, x.ns, x.build, 0, BuildPolling))
      else EndWorker(s, w)
    case FailingBuild(error) =>
      if !Lands(a) || x.build !in s.db.builds then EndWorker(s, w)
      else
        var row := s.db.builds[x.build].(status := BuildFailed, error := Some(error), endedAt := Some(a.now));
        EndWorker(PutBuild(s, x.build, row), w)
  }

  /** What the resolve branch of poll_build_until_done writes over the row, whatever its status. */
  function Resolved(row: BuildRow, v: Verdict, now: int): BuildRow
    requires !v.Unknown?
  {
    if v.Ready? then row.(status := Succeeded, imageTag := v.latestImage, endedAt := Some(now))
    else row.(status := BuildFailed, error := Some(v.error), endedAt := Some(now))
  }

  function TimeoutError(timeout: nat): string {
    "Build did not complete within " + Decimal(timeout) + "s"
  }

  function BuildText(status: BuildStatus): string {
    match status
    case Queued => "queued"
    case Building => "building"
    case Succeeded => "succeeded"
    case BuildFailed => "failed"
  }

  function PayloadOfBuild(b: nat, row: BuildRow): Payload {
    BuildPayload(row.tenant, b, row.status, row.imageTag, row.error)
  }

  function BuildTimedOut(row: BuildRow, now: int): BuildRow {
    row.(status := BuildFailed, error := Some(TimeoutError(BUILD_TIMEOUT)), endedAt := Some(now))
  }

  /** What goes on after a report was committed. */
  function BuildDispatcher(tenant: nat, b: nat, row: BuildRow): Worker {
    Dispatcher(tenant, "build." + BuildText(row.status), PayloadOfBuild(b, row), None, map[])
  }

  /** The commit of a report; only if it returns normally is the report announced. */
  function BuildResolveStep(s: State, w: nat, x: Worker, v: Verdict, a: Answer): (s': State)
    requires x.BuildPoller?
    ensures s'.db.tenants == s.db.tenants
  {
    if !Lands(a) || x.build !in s.db.builds || v.Unknown? then EndWorker(s, w)
    else
      var row := Resolved(s.db.builds[x.build], v, a.now);
      var s1 := PutBuild(s, x.build, row);
      if a.fault.NoFault? then SetWorker(s1, w, BuildDispatcher(x.tenant, x.build, row)) else EndWorker(s1, w)
  }

  function BuildTimeoutStep(s: State, w: nat, x: Worker, a: Answer): (s': State)
    requires x.BuildPoller?
    ensures s'.db.tenants == s.db.tenants
  {
    if !Lands(a) || x.build !in s.db.builds then EndWorker(s, w)
    else EndWorker(PutBuild(s, x.build, BuildTimedOut(s.db.builds[x.build], a.now)), w)
  }

  /** poll_build_until_done. */
  function BuildPollerStep(s: State, w: nat, x: Worker, a: Answer): (s': State)
    requires x.BuildPoller?
    ensures s'.db.tenants == s.db.tenants
  {
    var known := x.build in s.db.builds;
    match x.buildPhase
    case BuildPolling =>
      if x.elapsed >= BUILD_TIMEOUT then SetWorker(s, w, x.(buildPhase := BuildTimingOut))
      else if !a.fault.NoFault? then EndWorker(s, w)
      else
        var v := BuildVerdict(View(s, x.ns), ImageName(x.build));
        SetWorker(s, w, x.(elapsed := x.elapsed + BUILD_INTERVAL,
                           buildPhase := if v.Unknown? then BuildPolling else BuildResolving(v)))
    case BuildResolving(v) =>
      if a.fault.NoFault? && known then SetWorker(s, w, x.(buildPhase := BuildCommitting(v))) else EndWorker(s, w)
    case BuildCommitting(v) => BuildResolveStep(s, w, x, v, a)
    case BuildTimingOut =>
      if a.fault.NoFault? && known && s.db.builds[x.build].status.Building?
      then SetWorker(s, w, x.(buildPhase := BuildCommittingTimeout)) else EndWorker(s, w)
    case BuildCommittingTimeout => BuildTimeoutStep(s, w, x, a)
  }

  // ----- Deploying -----

  /** create_deployment_service after the row is committed. */
  function DeployHandlerStep(s: State, w: nat, x: Worker, a: Answer): (s': State)
    requires x.DeployHandler?
    ensures s'.db.tenants == s.db.tenants
  {
    var failing := x.(deployPc := FailingDeploy);
    match x.deployPc
    case CreatingApp =>
      if a.fault.Rejected? then SetWorker(s, w, failing)
      else
        var (n, reply) := CreateApp(View(s, x.ns), x.image, x.replicas);
        var after := if reply.NotFound? || a.fault.LostReply? then failing
                     else x.(deployPc := if reply.Conflict? then PatchingApp else CreatingService);
        SetWorker(PutNamespace(s, x.ns, n), w, after)
    case PatchingApp =>
      if a.fault.Rejected? then SetWorker(s, w, failing)
      else
        var (n, reply) := PatchApp(View(s, x.ns), x.image, x.replicas);
        var after := if reply.NotFound? || a.fault.LostReply? then failing else x.(deployPc := CreatingService);
        SetWorker(PutNamespace(s, x.ns, n), w, after)
    case CreatingService =>
      if a.fault.Rejected? then SetWorker(s, w, failing)
      else
        var (n, reply) := CreateService(View(s, x.ns));
        var after := if reply.NotFound? || a.fault.LostReply? then failing else x.(deployPc := CommittingDeploying);
        SetWorker(PutNamespace(s, x.ns, n), w, after)
    case CommittingDeploying =>
      if !Lands(a) || x.deployment !in s.db.deployments then SetWorker(s, w, failing)
      else
        var row := s.db.deployments[x.deployment].(status := Deploying);
        SetWorker(PutDeployment(s, x.deployment, row), w,
                  if a.fault.NoFault? then x.(deployPc := RefreshingDeploying) else failing)
    case RefreshingDeploying =>
      if !a.fault.NoFault? || x.deployment !in s.db.deployments then SetWorker(s, w, failing)
      else if s.db.deployments[x.deployment].status.Deploying? then
        SetWorker(s, w, DeployPoller(x.tenant, x.ns, x.deployment, 0, DeployPolling))
      else EndWorker(s, w)
    case FailingDeploy =>
      if !Lands(a) || x.deployment !in s.db.deployments then EndWorker(s, w)
      else EndWorker(PutDeployment(s, x.deployment, s.db.deployments[x.deployment].(status := DeployFailed)), w)
  }

  function DeployText(status: DeployStatus): string {
    match status
    case Pending => "pending"
    case Deploying => "deploying"
    case Running => "running"
    case DeployFailed => "failed"
    case Stopped => "stopped"
  }

  function PayloadOfDeployment(d: nat, row: DeployRow): Payload {
    DeployPayload(row.tenant, d, row.status)
  }

  function Rolled(row: DeployRow, running: bool): DeployRow {
    row.(status := if running then Running else DeployFailed)
  }

  function DeployDispatcher(tenant: nat, d: nat, row: DeployRow): Worker {
    Dispatcher(tenant, "deployment." + DeployText(row.status), PayloadOfDeployment(d, row), None, map[])
  }

  function DeployResolveStep(s: State, w: nat, x: Worker, running: bool, a: Answer): (s': State)
    requires x.DeployPoller?
    ensures s'.db.tenants == s.db.tenants
  {
    if !Lands(a) || x.deployment !in s.db.deployments then EndWorker(s, w)
    else
      var row := Rolled(s.db.deployments[x.deployment], running);
      var s1 := PutDeployment(s, x.deployment, row);
      if a.fault.NoFault? then SetWorker(s1, w, DeployDispatcher(x.tenant, x.deployment, row)) else EndWorker(s1, w)
  }

  function DeployTimeoutStep(s: State, w: nat, x: Worker, a: Answer): (s': State)
    requires x.DeployPoller?
    ensures s'.db.tenants == s.db.tenants
  {
    if !Lands(a) || x.deployment !in s.db.deployments then EndWorker(s, w)
    else EndWorker(PutDeployment(s, x.deployment, s.db.deployments[x.deployment].(status := DeployFailed)), w)
  }

  /** poll_deployment_until_running. */
  function DeployPollerStep(s: State, w: nat, x: Worker, a: Answer): (s': State)
    requires x.DeployPoller?
    ensures s'.db.tenants == s.db.tenants
  {
    var known := x.deployment in s.db.deployments;
    match x.deployPhase
    case DeployPolling =>
      if x.elapsed >= DEPLOY_TIMEOUT then SetWorker(s, w, x.(deployPhase := DeployTimingOut))
      else if !a.fault.NoFault? then EndWorker(s, w)
      else
        var v := RolloutVerdict(View(s, x.ns), a.ready, a.conditions);
        SetWorker(s, w, x.(elapsed := x.elapsed + DEPLOY_INTERVAL,
                           deployPhase := if v.None? then DeployPolling else DeployResolving(v.value)))
    case DeployResolving(running) =>
      if a.fault.NoFault? && known
      then SetWorker(s, w, x.(deployPhase := DeployCommitting(running))) else EndWorker(s, w)
    case DeployCommitting(running) => DeployResolveStep(s, w, x, running, a)
    case DeployTimingOut =>
      if a.fault.NoFault? && known && s.db.deployments[x.deployment].status.Deploying?
      then SetWorker(s, w, x.(deployPhase := DeployCommittingTimeout)) else EndWorker(s, w)
    case DeployCommittingTimeout => DeployTimeoutStep(s, w, x, a)
  }

  // ----- Webhooks -----

  function ActiveRegistrations(db: Database, tenant: nat): set<nat> {
    set r | r in db.registrations && db.registrations[r].tenant == tenant && db.registrations[r].active
  }

  /** The secrets that come with the selected rows. */
  function SecretsOf(registrations: map<nat, Registration>, order: seq<nat>): map<nat, string> {
    map r | r in registrations && r in order :: registrations[r].secret
  }

  predicate Distinct(q: seq<nat>) {
    forall i, j | 0 <= i < j < |q| :: q[i] != q[j]
  }

  /** dispatch_tenant_webhooks: select the recipients, then commit one delivery row for each. */
  function DispatcherStep(s: State, w: nat, x: Worker, a: Answer): (s': State)
    requires x.Dispatcher?
    ensures s'.db.tenants == s.db.tenants
  {
    match x.recipients
    case None =>
      if !a.fault.NoFault? then EndWorker(s, w)
      else if Distinct(a.order) && (set r | r in a.order) == ActiveRegistrations(s.db, x.payload.tenant)
      then SetWorker(s, w, x.(recipients := Some(a.order), secrets := SecretsOf(s.db.registrations, a.order)))
      else s
    case Some(to) =>
      var keysHold := x.payload.tenant in s.db.tenants && forall r | r in to :: r in s.db.registrations;
      if !Lands(a) || !keysHold then EndWorker(s, w)
      else EndWorker(InsertDeliveries(s, x.event, x.payload, to, Signing(x.secrets, a.clock)), w)
  }

  // ----- Requests -----

  /** The checks of create_deployment_service, and those of the schema before it. */
  predicate MayDeploy(db: Database, t: nat, b: nat, replicas: int) {
    1 <= replicas <= MAX_REPLICAS && b in db.builds && db.builds[b].tenant == t && db.builds[b].status.Succeeded?
  }

  /** The requests that are over after one commit: keys and registrations. */
  function Bookkept(s: State, t: nat, request: Request): (s': State)
    ensures s' == s.(db := s'.db) && s'.db.tenants == s.db.tenants
  {
    match request
    case NewKey(hash, name) =>
      if HashTaken(s.db, hash) || NameTaken(s.db, t, name) then s else InsertKey(s, KeyRow(t, hash, name, false))
    case RevokeKey(k) =>
      if k in s.db.keys && s.db.keys[k].tenant == t
      then s.(db := s.db.(keys := s.db.keys[k := s.db.keys[k].(revoked := true)])) else s
    case Register(secret) => InsertRegistration(s, Registration(t, secret, true))
    case _ => s
  }

  /** The first step of an authorised handler; a dead end closes the request with an error. */
  function AdmittedStep(s: State, w: nat, x: Worker, a: Answer): (s': State)
    requires x.Admitted?
    ensures s'.db.tenants == s.db.tenants
  {
    var t := x.tenant;
    if !Lands(a) || t !in s.db.tenants then EndWorker(s, w)
    else
      match x.request
      case NewBuild(source) =>
        var s1 := InsertBuild(s, BuildRow(t, source, Queued, None, None, None, None));
        if !a.fault.NoFault? then EndWorker(s1, w)
        else SetWorker(s1, w, BuildHandler(t, s.db.tenants[t].namespace, s.db.nextBuild, source, Ensuring(0)))
      case NewDeployment(b, replicas) =>
        if a.fault.NoFault? && MayDeploy(s.db, t, b, replicas)
        then SetWorker(s, w, DeployInserting(t, b, s.db.builds[b].imageTag, replicas))
        else EndWorker(s, w)
      case Kubeconfig =>
        if a.fault.NoFault?
        then SetWorker(s, w, KubeconfigHandler(t, s.db.tenants[t].namespace, 0)) else EndWorker(s, w)
      case _ => EndWorker(Bookkept(s, t, x.request), w)
  }

  /** The insert of a deployment row; both foreign keys must still hold when it commits. */
  function DeployInsertingStep(s: State, w: nat, x: Worker, a: Answer): (s': State)
    requires x.DeployInserting?
    ensures s'.db.tenants == s.db.tenants
  {
    if !Lands(a) || x.tenant !in s.db.tenants || x.build !in s.db.builds then EndWorker(s, w)
    else
      var s1, d := InsertDeployment(s, DeployRow(x.tenant, x.build, Pending, x.replicas)), s.db.nextDeployment;
      if !a.fault.NoFault? then EndWorker(s1, w)
      else SetWorker(s1, w,
                     DeployHandler(x.tenant, s.db.tenants[x.tenant].namespace, d, x.image, x.replicas, CreatingApp))
  }

  /** get_tenant_kubeconfig_service: hardening first, then the viewer's RBAC. */
  function KubeconfigStep(s: State, w: nat, x: Worker, a: Answer): (s': State)
    requires x.KubeconfigHandler?
    ensures s'.db == s.db
  {
    if x.k >= ALL_OBJECTS || a.fault.Rejected? then EndWorker(s, w)
    else
      var (n, reply) := CreateObject(View(s, x.ns), x.k, ManifestFor(x.k, a.dns));
      var s1 := PutNamespace(s, x.ns, n);
      if reply.NotFound? || a.fault.LostReply? then EndWorker(s1, w) else SetWorker(s1, w, x.(k := x.k + 1))
  }

  /** No handler and no poller touches the tenants table. */
  function WorkStep(s: State, w: nat, a: Answer): (s': State)
    requires w in s.workers
    ensures s'.db.tenants == s.db.tenants
  {
    var x := s.workers[w];
    match x
    case TenantTransaction(_) => s
    case Admitted(_, _) => AdmittedStep(s, w, x, a)
    case BuildHandler(_, _, _, _, _) => BuildHandlerStep(s, w, x, a)
    case BuildPoller(_, _, _, _, _) => BuildPollerStep(s, w, x, a)
    case DeployInserting(_, _, _, _) => DeployInsertingStep(s, w, x, a)
    case DeployHandler(_, _, _, _, _, _) => DeployHandlerStep(s, w, x, a)
    case DeployPoller(_, _, _, _, _) => DeployPollerStep(s, w, x, a)
    case Dispatcher(_, _, _, _, _) => DispatcherStep(s, w, x, a)
    case KubeconfigHandler(_, _, _) => KubeconfigStep(s, w, x, a)
  }

  // ----- Tenants (control_plane/app/services/tenants.py) -----

  /** Insert and flush: the key is taken from the sequence, the placeholder row is not visible yet. */
  function BeginTenantStep(s: State): State {
    Spawn(s, TenantTransaction(s.db.nextTenant)).(db := s.db.(nextTenant := s.db.nextTenant + 1))
  }

  /** Rename and commit, together with the tenant's primary key. */
  function CommitTenantStep(s: State, w: nat, t: nat, name: string, hash: string): State {
    if HashTaken(s.db, hash) then EndWorker(s, w)
    else
      var s1 := s.(db := s.db.(tenants := s.db.tenants[t := TenantRow(NamespaceName(t), name, true)]),
                   past := s.past.(committed := s.past.committed + {t}));
      EndWorker(InsertKey(s1, KeyRow(t, hash, "primary", false)), w)
  }

  /** Only the fields that are given are set; the namespace is not among them. */
  function Updated(row: TenantRow, name: Option<string>, active: Option<bool>): TenantRow {
    row.(name := if name.Some? then name.value else row.name,
         active := if active.Some? then active.value else row.active)
  }

  /** Without the tenant's row and, by cascade, every row that refers to it. */
  function WithoutTenant(db: Database, t: nat): Database {
    db.(
      tenants := db.tenants - {t},
      keys := map k | k in db.keys && db.keys[k].tenant != t :: db.keys[k],
      builds := map b | b in db.builds && db.builds[b].tenant != t :: db.builds[b],
      deployments := map d | d in db.deployments && db.deployments[d].tenant != t :: db.deployments[d],
      registrations := map r | r in db.registrations && db.registrations[r].tenant != t :: db.registrations[r],
      deliveries := map i | i in db.deliveries && db.deliveries[i].tenant != t :: db.deliveries[i])
  }

  /** The cluster is left as it is. */
  function DeleteTenantStep(s: State, t: nat): State {
    s.(db := WithoutTenant(s.db, t))
  }

  /** kpack writes a new status on an Image that exists. */
  function KpackReportStep(s: State, ns: string, image: string, status: ImageStatus): State
    requires ns in s.cluster && image in s.cluster[ns].images
  {
    var n := s.cluster[ns];
    s.(cluster := s.cluster[ns := n.(images := n.images[image := n.images[image].(status := status)])],
       past := s.past.(reports := s.past.reports + {Report(ns, image, status)}))
  }

  function Apply(s: State, step: Step): State {
    match step
    case BeginTenant => BeginTenantStep(s)
    case CommitTenant(w, name, hash) =>
      if w in s.workers && s.workers[w].TenantTransaction?
      then CommitTenantStep(s, w, s.workers[w].tenant, name, hash) else s
    case UpdateTenant(t, name, active) =>
      if t in s.db.tenants
      then s.(db := s.db.(tenants := s.db.tenants[t := Updated(s.db.tenants[t], name, active)])) else s
    case DeleteTenant(t) => DeleteTenantStep(s, t)
    case Admit(t, hash, request) =>
      if Authorised(s.db, t, hash) then Spawn(s, Admitted(t, request)) else s
    case Work(w, a) => if w in s.workers then WorkStep(s, w, a) else s
    case Crash(w) => EndWorker(s, w)
    case KpackReport(ns, image, status) =>
      if ns in s.cluster && image in s.cluster[ns].images then KpackReportStep(s, ns, image, status) else s
  }

  /** The state after a run. */
  function Run(steps: seq<Step>): State {
    if steps == [] then INITIAL else Apply(Run(steps[..|steps| - 1]), steps[|steps| - 1])
  }
}
