/**
  The inductive invariant of the control plane. It speaks of the database, the
  cluster and the history (the core) and of what each worker may rely on.
 */
module Invariant {
  import opened Options
  import opened Naming
  import opened Kubernetes
  import opened ControlPlane

  datatype Core = Core(db: Database, cluster: map<string, Namespace>, past: History)

  function CoreOf(s: State): Core {
    Core(s.db, s.cluster, s.past)
  }

  /** The row, if any, that a worker or a webhook is about. */
  datatype Subject = NoSubject | OnTenant(tenant: nat) | OnBuild(build: nat) | OnDeployment(deployment: nat)

  function SubjectOfPayload(p: Payload): Subject {
    match p
    case BuildPayload(_, b, _, _, _) => OnBuild(b)
    case DeployPayload(_, d, _) => OnDeployment(d)
  }

  function SubjectOf(x: Worker): Subject {
    match x
    case TenantTransaction(t) => OnTenant(t)
    case BuildHandler(_, _, b, _, _) => OnBuild(b)
    case BuildPoller(_, _, b, _, _) => OnBuild(b)
    case DeployHandler(_, _, d, _, _, _) => OnDeployment(d)
    case DeployPoller(_, _, d, _, _) => OnDeployment(d)
    case Dispatcher(_, _, p, _, _) => SubjectOfPayload(p)
    case Admitted(_, _) => NoSubject
    case DeployInserting(_, _, _, _) => NoSubject
    case KubeconfigHandler(_, _, _) => NoSubject
  }

  predicate FinalBuild(status: BuildStatus) {
    status.Succeeded? || status.BuildFailed?
  }

  predicate FinalDeploy(status: DeployStatus) {
    status.Running? || status.DeployFailed? || status.Stopped?
  }

  // ----- Cluster -----

  /** The namespace of tenant t holds at least the first k create-or-409 objects. */
  ghost predicate Prepared(c: Core, t: nat, k: nat) {
    NamespaceName(t) in c.cluster && HasFirst(c.cluster[NamespaceName(t)], k)
  }

  /** The kpack Image of build b stands in its hardened namespace. */
  ghost predicate Imaged(c: Core, t: nat, b: nat) {
    Prepared(c, t, HARDENING) && ImageName(b) in c.cluster[NamespaceName(t)].images
  }

  /** The Image is made from this source: its url, its revision, and its sub-path unless that is empty. */
  predicate BuiltFrom(spec: ImageSpec, source: Source) {
    && spec.source.gitUrl == source.gitUrl && spec.source.revision == source.revision
    && spec.source.subPath == if source.subPath.Some? && source.subPath.value != "" then source.subPath else None
  }

  ghost predicate ImagedFrom(c: Core, t: nat, b: nat, source: Source) {
    Imaged(c, t, b) && BuiltFrom(c.cluster[NamespaceName(t)].images[ImageName(b)].spec, source)
  }

  /** kpack once declared the Image of build b ready with this image. */
  ghost predicate Reported(past: History, t: nat, b: nat, image: Option<string>) {
    exists status :: Report(NamespaceName(t), ImageName(b), status) in past.reports && VerdictOf(status) == Ready(image)
  }

  /** Build b of tenant t succeeded and recorded this image from such a report. */
  ghost predicate Recorded(past: History, t: nat, b: nat, image: Option<string>) {
    && b in past.buildOwner && past.buildOwner[b] == t
    && b in past.recorded && past.recorded[b] == image && Reported(past, t, b, image)
  }

  ghost predicate HasRecord(past: History, t: nat, image: Option<string>) {
    exists b :: Recorded(past, t, b, image)
  }

  /** An Image of the given name and spec belongs to build b of tenant t. */
  ghost predicate BelongsTo(past: History, t: nat, b: nat, name: string, spec: ImageSpec) {
    && b in past.buildOwner && past.buildOwner[b] == t && name == ImageName(b)
    && spec.tag == REGISTRY + ":" + ImageTag(t, b) && spec.account == BUILD_ACCOUNT_NAME
  }

  ghost predicate HasBuild(past: History, t: nat, name: string, spec: ImageSpec) {
    exists b :: BelongsTo(past, t, b, name, spec)
  }

  /** The Image is a build's, and whatever status it carries was reported by kpack. */
  ghost predicate ImageOk(past: History, t: nat, name: string, image: KpackImage) {
    && HasBuild(past, t, name, image.spec)
    && (image.status.conditions != [] ==> Report(NamespaceName(t), name, image.status) in past.reports)
  }

  ghost predicate Structured(n: Namespace) {
    IsPrefix(n) && Genuine(n) && (HasWorkload(n) ==> HasFirst(n, HARDENING))
  }

  ghost predicate AppOk(past: History, t: nat, app: App) {
    app.template == TENANT_TEMPLATE && 1 <= app.replicas <= MAX_REPLICAS && HasRecord(past, t, app.image)
  }

  ghost predicate ContentOk(past: History, t: nat, n: Namespace) {
    && Structured(n)
    && (forall name | name in n.images :: ImageOk(past, t, name, n.images[name]))
    && (n.app.Some? ==> AppOk(past, t, n.app.value))
  }

  ghost predicate HasOwner(past: History, ns: string) {
    exists t :: t in past.committed && NamespaceName(t) == ns
  }

  ghost predicate ClusterOk(c: Core) {
    && (forall ns | ns in c.cluster :: HasOwner(c.past, ns))
    && (forall t: nat | NamespaceName(t) in c.cluster :: ContentOk(c.past, t, c.cluster[NamespaceName(t)]))
    && (forall r | r in c.past.reports :: r.ns in c.cluster && r.image in c.cluster[r.ns].images)
  }

  // ----- Database -----

  /** Timestamps, image and error are set exactly as the status says. */
  predicate FieldsMatch(r: BuildRow) {
    match r.status
    case Queued => r.startedAt.None? && r.endedAt.None? && r.imageTag.None? && r.error.None?
    case Building => r.startedAt.Some? && r.endedAt.None? && r.imageTag.None? && r.error.None?
    case Succeeded => r.startedAt.Some? && r.endedAt.Some? && r.error.None?
    case BuildFailed => r.endedAt.Some? && r.imageTag.None? && r.error.Some?
  }

  ghost predicate TenantOk(c: Core, t: nat) {
    t in c.db.tenants ==> t in c.past.committed && c.db.tenants[t].namespace == NamespaceName(t)
  }

  ghost predicate BuildOk(c: Core, b: nat) {
    b in c.db.builds ==>
      var r := c.db.builds[b];
      && b in c.past.buildOwner && c.past.buildOwner[b] == r.tenant && r.tenant in c.db.tenants
      && FieldsMatch(r)
      && (r.status.Building? ==> ImagedFrom(c, r.tenant, b, r.source))
      && (r.status.Succeeded? ==> ImagedFrom(c, r.tenant, b, r.source) && Recorded(c.past, r.tenant, b, r.imageTag))
      && (b in c.past.recorded ==> r.status.Succeeded?)
  }

  ghost predicate DeployOk(c: Core, d: nat) {
    d in c.db.deployments ==>
      var r := c.db.deployments[d];
      && d in c.past.deployOwner && c.past.deployOwner[d] == r.tenant && r.tenant in c.db.tenants
      && r.build in c.db.builds && c.db.builds[r.build].tenant == r.tenant && c.db.builds[r.build].status.Succeeded?
      && 1 <= r.replicas <= MAX_REPLICAS && !r.status.Stopped?
  }

  /** A build or deployment row stays for as long as its tenant's row does. */
  ghost predicate OwnersOk(c: Core) {
    && (forall t | t in c.past.committed :: t < c.db.nextTenant)
    && (forall b | b in c.past.buildOwner ::
          && b < c.db.nextBuild && c.past.buildOwner[b] in c.past.committed
          && (c.past.buildOwner[b] in c.db.tenants ==> b in c.db.builds))
    && (forall b | b in c.past.recorded :: b in c.past.buildOwner)
    && (forall d | d in c.past.deployOwner ::
          && d < c.db.nextDeployment && c.past.deployOwner[d] in c.past.committed
          && (c.past.deployOwner[d] in c.db.tenants ==> d in c.db.deployments))
  }

  ghost predicate KeysOk(db: Database) {
    && (forall k | k in db.keys :: k < db.nextKey && db.keys[k].tenant in db.tenants)
    && (forall k, l | k in db.keys && l in db.keys && db.keys[k].hash == db.keys[l].hash :: k == l)
    && (forall r | r in db.registrations :: r < db.nextRegistration && db.registrations[r].tenant in db.tenants)
  }

  /** The payload is what the committed, final row says. */
  ghost predicate Matches(db: Database, p: Payload) {
    match p
    case BuildPayload(_, b, _, _, _) =>
      b in db.builds && FinalBuild(db.builds[b].status) && p == PayloadOfBuild(b, db.builds[b])
    case DeployPayload(_, d, _) =>
      d in db.deployments && FinalDeploy(db.deployments[d].status) && p == PayloadOfDeployment(d, db.deployments[d])
  }

  /** The event that goes with a payload. */
  function EventOf(p: Payload): string {
    match p
    case BuildPayload(_, _, status, _, _) => "build." + BuildText(status)
    case DeployPayload(_, _, status) => "deployment." + DeployText(status)
  }

  ghost predicate DeliveryOk(db: Database, i: nat) {
    i in db.deliveries ==>
      var v := db.deliveries[i];
      && i < db.nextDelivery && v.payload.tenant == v.tenant && v.tenant in db.tenants
      && v.registration in db.registrations && db.registrations[v.registration].tenant == v.tenant
      && v.secret == db.registrations[v.registration].secret
      && Matches(db, v.payload) && v.event == EventOf(v.payload)
  }

  ghost predicate DeliveriesOk(db: Database) {
    && (forall i: nat :: DeliveryOk(db, i))
    && (forall i, j | i in db.deliveries && j in db.deliveries
          && db.deliveries[i].registration == db.deliveries[j].registration
          && SubjectOfPayload(db.deliveries[i].payload) == SubjectOfPayload(db.deliveries[j].payload) :: i == j)
  }

  ghost predicate RowsOk(c: Core) {
    && (forall t: nat :: TenantOk(c, t))
    && (forall b: nat :: BuildOk(c, b))
    && (forall d: nat :: DeployOk(c, d))
  }

  ghost predicate CoreOk(c: Core) {
    ClusterOk(c) && RowsOk(c) && OwnersOk(c) && KeysOk(c.db) && DeliveriesOk(c.db)
  }

  // ----- Workers -----

  ghost predicate Undelivered(db: Database, subject: Subject) {
    forall i | i in db.deliveries :: SubjectOfPayload(db.deliveries[i].payload) != subject
  }

  /** Build b of tenant t is not final, it has one of the two given statuses, and nothing was sent about it. */
  ghost predicate BuildOpen(c: Core, t: nat, b: nat, one: BuildStatus, other: BuildStatus) {
    && b in c.past.buildOwner && c.past.buildOwner[b] == t
    && (b in c.db.builds ==> c.db.builds[b].status in {one, other})
    && Undelivered(c.db, OnBuild(b))
  }

  ghost predicate DeployOpen(c: Core, t: nat, d: nat, one: DeployStatus, other: DeployStatus) {
    && d in c.past.deployOwner && c.past.deployOwner[d] == t
    && (d in c.db.deployments ==> c.db.deployments[d].status in {one, other})
    && Undelivered(c.db, OnDeployment(d))
  }

  ghost predicate BuildHandlerOk(c: Core, x: Worker)
    requires x.BuildHandler?
  {
    && x.ns == NamespaceName(x.tenant)
    && (x.build in c.db.builds ==> c.db.builds[x.build].source == x.source)
    && match x.buildPc
       case Ensuring(k) =>
         && k <= HARDENING && (k > 0 ==> Prepared(c, x.tenant, k))
         && BuildOpen(c, x.tenant, x.build, Queued, Queued)
       case CreatingImage => Prepared(c, x.tenant, HARDENING) && BuildOpen(c, x.tenant, x.build, Queued, Queued)
       case CommittingBuilding =>
         ImagedFrom(c, x.tenant, x.build, x.source) && BuildOpen(c, x.tenant, x.build, Queued, Queued)
       case RefreshingBuilding => Imaged(c, x.tenant, x.build) && BuildOpen(c, x.tenant, x.build, Building, Building)
       case FailingBuild(_) => BuildOpen(c, x.tenant, x.build, Queued, Building)
  }

  ghost predicate VerdictOk(c: Core, x: Worker, v: Verdict)
    requires x.BuildPoller?
  {
    !v.Unknown? && (v.Ready? ==> Reported(c.past, x.tenant, x.build, v.latestImage))
  }

  ghost predicate BuildPollerOk(c: Core, x: Worker)
    requires x.BuildPoller?
  {
    && x.ns == NamespaceName(x.tenant)
    && Imaged(c, x.tenant, x.build) && BuildOpen(c, x.tenant, x.build, Building, Building)
    && match x.buildPhase
       case BuildResolving(v) => VerdictOk(c, x, v)
       case BuildCommitting(v) => VerdictOk(c, x, v)
       case _ => true
  }

  /** The deployed image was recorded for this tenant, and its namespace is hardened. */
  ghost predicate Deployable(c: Core, t: nat, image: Option<string>, replicas: int) {
    HasRecord(c.past, t, image) && Prepared(c, t, HARDENING) && 1 <= replicas <= MAX_REPLICAS
  }

  ghost predicate DeployHandlerOk(c: Core, x: Worker)
    requires x.DeployHandler?
  {
    && x.ns == NamespaceName(x.tenant) && Deployable(c, x.tenant, x.image, x.replicas)
    && match x.deployPc
       case RefreshingDeploying => DeployOpen(c, x.tenant, x.deployment, Deploying, Deploying)
       case FailingDeploy => DeployOpen(c, x.tenant, x.deployment, Pending, Deploying)
       case _ => DeployOpen(c, x.tenant, x.deployment, Pending, Pending)
  }

  ghost predicate DispatcherOk(c: Core, x: Worker)
    requires x.Dispatcher?
  {
    && x.payload.tenant == x.tenant && x.event == EventOf(x.payload)
    && Undelivered(c.db, SubjectOfPayload(x.payload))
    && (x.tenant in c.db.tenants ==> Matches(c.db, x.payload))
    && (x.payload.BuildPayload? ==>
          x.payload.build in c.past.buildOwner && c.past.buildOwner[x.payload.build] == x.tenant)
    && (x.payload.DeployPayload? ==>
          x.payload.deployment in c.past.deployOwner && c.past.deployOwner[x.payload.deployment] == x.tenant)
    && (x.recipients.Some? ==> Distinct(x.recipients.value) && forall r | r in x.recipients.value ::
          && r < c.db.nextRegistration && r in x.secrets
          && (r in c.db.registrations ==>
                c.db.registrations[r].tenant == x.tenant && c.db.registrations[r].secret == x.secrets[r]))
  }

  ghost predicate WorkerOk(c: Core, x: Worker) {
    match x
    case TenantTransaction(t) => t < c.db.nextTenant && t !in c.past.committed
    case Admitted(t, _) => t in c.past.committed
    case BuildHandler(t, _, _, _, _) => t in c.past.committed && BuildHandlerOk(c, x)
    case BuildPoller(t, _, _, _, _) => t in c.past.committed && BuildPollerOk(c, x)
    case DeployInserting(t, b, image, replicas) =>
      && t in c.past.committed && Deployable(c, t, image, replicas)
      && b in c.past.buildOwner && c.past.buildOwner[b] == t && (b in c.db.builds ==> c.db.builds[b].status.Succeeded?)
    case DeployHandler(t, _, _, _, _, _) => t in c.past.committed && DeployHandlerOk(c, x)
    case DeployPoller(t, ns, d, _, _) =>
      t in c.past.committed && ns == NamespaceName(t) && DeployOpen(c, t, d, Deploying, Deploying)
    case Dispatcher(t, _, _, _, _) => t in c.past.committed && DispatcherOk(c, x)
    case KubeconfigHandler(t, ns, k) => t in c.past.committed && ns == NamespaceName(t) && (k > 0 ==> Prepared(c, t, k))
  }

  ghost predicate WorkersOk(s: State) {
    && (forall w | w in s.workers :: w < s.nextWorker && WorkerOk(CoreOf(s), s.workers[w]))
    && (forall v, w | v in s.workers && w in s.workers
            && SubjectOf(s.workers[v]) == SubjectOf(s.workers[w]) != NoSubject :: v == w)
  }

  ghost predicate Inv(s: State) {
    CoreOk(CoreOf(s)) && WorkersOk(s)
  }

  // ----- What a step guarantees to the workers that do not take it -----

  ghost predicate PastGrows(p: History, p': History) {
    && p.committed <= p'.committed && p.reports <= p'.reports
    && (forall b | b in p.buildOwner :: b in p'.buildOwner && p'.buildOwner[b] == p.buildOwner[b])
    && (forall d | d in p.deployOwner :: d in p'.deployOwner && p'.deployOwner[d] == p.deployOwner[d])
    && (forall b | b in p.recorded :: b in p'.recorded && p'.recorded[b] == p.recorded[b])
  }

  ghost predicate ClusterGrows(cl: map<string, Namespace>, cl': map<string, Namespace>) {
    forall ns | ns in cl :: ns in cl' && Grows(cl[ns], cl'[ns])
  }

  /** Rows may vanish, new keys may appear, and only the subject's own row may change, if it is not final. */
  ghost predicate RowsKept(c: Core, c': Core, subject: Subject) {
    && (forall t | t in c'.db.tenants :: t in c.db.tenants || (t !in c.past.committed && subject == OnTenant(t)))
    && (forall t | t in c'.past.committed :: t in c.past.committed || subject == OnTenant(t))
    && (forall b | b in c'.db.builds ::
          || (b in c.db.builds && c'.db.builds[b] == c.db.builds[b])
          || b !in c.past.buildOwner
          || (subject == OnBuild(b) && b in c.db.builds && !FinalBuild(c.db.builds[b].status)))
    && (forall d | d in c'.db.deployments ::
          || (d in c.db.deployments && c'.db.deployments[d] == c.db.deployments[d])
          || d !in c.past.deployOwner
          || (subject == OnDeployment(d) && d in c.db.deployments && !FinalDeploy(c.db.deployments[d].status)))
    && (forall i | i in c'.db.deliveries ::
          (i in c.db.deliveries && c'.db.deliveries[i] == c.db.deliveries[i])
          || (subject != NoSubject && SubjectOfPayload(c'.db.deliveries[i].payload) == subject))
    && (forall r | r in c'.db.registrations ::
          (r in c.db.registrations && c'.db.registrations[r] == c.db.registrations[r]) || r >= c.db.nextRegistration)
    && (forall b | b in c.db.builds && c.db.builds[b].tenant in c'.db.tenants :: b in c'.db.builds)
    && (forall d | d in c.db.deployments && c.db.deployments[d].tenant in c'.db.tenants :: d in c'.db.deployments)
    && c.db.nextTenant <= c'.db.nextTenant && c.db.nextRegistration <= c'.db.nextRegistration
  }

  ghost predicate Guarantee(c: Core, c': Core, subject: Subject) {
    PastGrows(c.past, c'.past) && ClusterGrows(c.cluster, c'.cluster) && RowsKept(c, c', subject)
  }
}
