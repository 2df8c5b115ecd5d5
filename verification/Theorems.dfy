/** What holds of the control plane after every run, and between any two points of a run. */
module Theorems {
  import opened Options
  import opened Text
  import opened Naming
  import opened Kubernetes
  import opened ControlPlane
  import opened Invariant
  import opened StepProof
  import opened StepEffects
  import Quota

  // ----- Isolation -----

  /** No workload without hardening, although the deploy path never hardens a namespace. */
  lemma NoWorkloadWithoutHardening(steps: seq<Step>, ns: string)
    requires var n := View(Run(steps), ns); n.images != map[] || n.app.Some? || n.service
    ensures Hardened(View(Run(steps), ns))
    ensures var n := View(Run(steps), ns);
            && n.objects[0] == NamespaceManifest("restricted")
            && n.objects[1] == QuotaManifest(Resources(2000, 4096), Resources(4000, 8192), 20)
            && n.objects[2] == LimitRangeManifest(Resources(500, 512), Resources(100, 128))
            && n.objects[3].NetworkPolicyManifest? && n.objects[3].ingress == []
            && n.objects[4] == SecretManifest("kubernetes.io/dockerconfigjson")
            && n.objects[5] == AccountManifest(Some("tenant-registry-credentials"))
  {
    hide Inv;
    var s := Run(steps);
    RunOk(steps);
    WorkloadIsHardened(s, ns);
    var n := View(s, ns);
    assert forall k: nat | k < HARDENING :: k in n.objects && IsManifest(k, n.objects[k]);
  }

  lemma WorkloadIsHardened(s: State, ns: string)
    requires Inv(s) && HasWorkload(View(s, ns))
    ensures Hardened(View(s, ns))
  {
    hide Isolates;
    assert HasOwner(s.past, ns);
    var t :| t in s.past.committed && NamespaceName(t) == ns;
    NamespaceSeen(s, t);
  }

  /**
    The image that runs in a namespace is the one that a build of the tenant the namespace
    belongs to recorded when it succeeded, from a report in which kpack declared that
    build's Image ready with it. The Image is still there with the tag that only this
    build pushes to, and so is the row, unless the tenant was deleted.
   */
  lemma ImageProvenance(steps: seq<Step>, ns: string) returns (t: nat, b: nat, status: ImageStatus)
    requires View(Run(steps), ns).app.Some?
    ensures var s := Run(steps); var image := View(s, ns).app.value.image;
            && ns == NamespaceName(t) && b in s.past.buildOwner && s.past.buildOwner[b] == t
            && b in s.past.recorded && s.past.recorded[b] == image
            && Report(ns, ImageName(b), status) in s.past.reports && status.latestImage == image
            && FirstOfKind(status.conditions, "Ready").Some?
            && FirstOfKind(status.conditions, "Ready").value.status == "True"
            && (t in s.db.tenants ==>
                  b in s.db.builds && s.db.builds[b].status == Succeeded && s.db.builds[b].imageTag == image)
            && ImageName(b) in View(s, ns).images
            && View(s, ns).images[ImageName(b)].spec.tag == REGISTRY + ":" + ImageTag(t, b)
  {
    hide Inv;
    var s := Run(steps);
    RunOk(steps);
    t, b := AppIsRecorded(s, ns);
    status :| Report(ns, ImageName(b), status) in s.past.reports
        && VerdictOf(status) == Ready(View(s, ns).app.value.image);
    RecordedRow(s, t, b);
    ReportedImage(s, t, b, status);
  }

  lemma AppIsRecorded(s: State, ns: string) returns (t: nat, b: nat)
    requires Inv(s) && View(s, ns).app.Some?
    ensures ns == NamespaceName(t) && Recorded(s.past, t, b, View(s, ns).app.value.image)
  {
    assert HasOwner(s.past, ns);
    t :| t in s.past.committed && NamespaceName(t) == ns;
    NamespaceSeen(s, t);
    b :| Recorded(s.past, t, b, View(s, ns).app.value.image);
  }

  /** The row of a recorded success stays, unless its tenant's goes. */
  lemma RecordedRow(s: State, t: nat, b: nat)
    requires Inv(s) && b in s.past.buildOwner && s.past.buildOwner[b] == t && b in s.past.recorded
    ensures t in s.db.tenants ==>
              b in s.db.builds && s.db.builds[b].status == Succeeded && s.db.builds[b].imageTag == s.past.recorded[b]
  {
    RowsSeen(s, b, 0, 0);
  }

  lemma ReportedImage(s: State, t: nat, b: nat, status: ImageStatus)
    requires Inv(s) && Report(NamespaceName(t), ImageName(b), status) in s.past.reports
    ensures var n := View(s, NamespaceName(t));
            ImageName(b) in n.images && n.images[ImageName(b)].spec.tag == REGISTRY + ":" + ImageTag(t, b)
  {
    NamespaceSeen(s, t);
    var n := View(s, NamespaceName(t));
    assert ImageOk(s.past, t, ImageName(b), n.images[ImageName(b)]);
    var c :| BelongsTo(s.past, t, c, ImageName(b), n.images[ImageName(b)].spec);
    ImageNameInjective(b, c);
  }

  /** A build that runs or has succeeded has its Image, and the Image is made from the source the row names. */
  lemma BuiltFromItsSource(steps: seq<Step>, b: nat)
    requires var db := Run(steps).db; b in db.builds && db.builds[b].status in {Building, Succeeded}
    ensures var s := Run(steps); var row := s.db.builds[b];
            var images := View(s, "tenant-" + Decimal(row.tenant)).images;
            && "build-" + Decimal(b) in images
            && var source := images["build-" + Decimal(b)].spec.source;
               && source.gitUrl == row.source.gitUrl && source.revision == row.source.revision
               && (source.subPath.Some? <==> row.source.subPath.Some? && row.source.subPath.value != "")
               && (source.subPath.Some? ==> source.subPath == row.source.subPath)
  {
    hide Inv;
    RunOk(steps);
    RowsSeen(Run(steps), b, 0, 0);
  }

  /** A namespace with anything in it belongs to exactly one tenant that was once committed. */
  lemma NamespaceOwnership(steps: seq<Step>, ns: string) returns (t: nat)
    requires ns in Run(steps).cluster
    ensures t in Run(steps).past.committed && ns == NamespaceName(t)
    ensures forall u: nat :: NamespaceName(u) == ns ==> u == t
  {
    var s := Run(steps);
    RunOk(steps);
    assert HasOwner(s.past, ns);
    t :| t in s.past.committed && NamespaceName(t) == ns;
    forall u: nat | NamespaceName(u) == ns
      ensures u == t
    {
      NamespaceInjective(u, t);
    }
  }

  /** A tenant that appears finds its namespace empty: nothing is left there by a deleted one. */
  lemma NewTenantStartsEmpty(steps: seq<Step>, step: Step, t: nat)
    requires t !in Run(steps).db.tenants && t in Apply(Run(steps), step).db.tenants
    ensures View(Apply(Run(steps), step), NamespaceName(t)) == EMPTY
    ensures t !in Run(steps).past.committed
    ensures Apply(Run(steps), step).db.tenants[t].namespace == NamespaceName(t)
  {
    hide Inv, WorkStep;
    var s, s' := Run(steps), Apply(Run(steps), step);
    RunOk(steps);
    AppearsByCommit(s, step, t);
    WorkerSeen(s, step.worker);
    if NamespaceName(t) in s.cluster {
      var u := NamespaceOwnership(steps, NamespaceName(t));
      assert false;
    }
  }

  lemma AppearsByCommit(s: State, step: Step, t: nat)
    requires Inv(s) && t !in s.db.tenants && t in Apply(s, step).db.tenants
    ensures step.CommitTenant? && step.worker in s.workers && s.workers[step.worker] == TenantTransaction(t)
  {
    hide Inv, WorkStep;
  }

  /** A step taken for one tenant leaves every other tenant's rows, namespace and workers as they were. */
  lemma TenantFrame(steps: seq<Step>, step: Step, t: nat, u: nat)
    requires ActsFor(Run(steps), step, t) && u != t
    ensures SameFor(Run(steps), Apply(Run(steps), step), u)
  {
    hide Inv, SameFor;
    RunOk(steps);
    ApplyConfined(Run(steps), step, t);
  }

  // ----- State machines -----

  /** Nothing committed as final is ever rewritten, and nothing in the cluster is ever undone. */
  lemma {:induction false} RunMonotone(steps: seq<Step>, more: seq<Step>)
    ensures Monotone(Run(steps), Run(steps + more))
  {
    hide Inv, ClusterGrows, RowsMonotone;
    if more == [] {
      assert steps + more == steps;
      NothingConfined(Run(steps), 0);
    } else {
      var n := |more| - 1;
      var front := steps + more[..n];
      assert (steps + more)[..|steps| + n] == front && (steps + more)[|steps| + n] == more[n];
      RunMonotone(steps, more[..n]);
      RunOk(steps);
      RunOk(front);
      ApplyMonotone(Run(front), more[n]);
      MonotoneTransitive(Run(steps), Run(front), Run(steps + more));
    }
  }

  lemma MonotoneTransitive(a: State, b: State, c: State)
    requires Inv(a) && Monotone(a, b) && Monotone(b, c)
    ensures Monotone(a, c)
  {
    forall ns | ns in a.cluster
      ensures ns in c.cluster && Grows(a.cluster[ns], c.cluster[ns])
    {
      assert Grows(a.cluster[ns], b.cluster[ns]) && Grows(b.cluster[ns], c.cluster[ns]);
    }
    RowsTransitive(a, b, c);
  }

  lemma RowsTransitive(a: State, b: State, c: State)
    requires Inv(a) && RowsMonotone(a.db, b.db) && RowsMonotone(b.db, c.db)
    ensures RowsMonotone(a.db, c.db)
  {
    hide Inv;
    KeysSeen(a);
    RowKeysSeen(a);
  }

  lemma RowKeysSeen(s: State)
    requires Inv(s)
    ensures forall b | b in s.db.builds :: b < s.db.nextBuild
    ensures forall d | d in s.db.deployments :: d < s.db.nextDeployment
  {
    forall b | b in s.db.builds
      ensures b < s.db.nextBuild
    {
      RowsSeen(s, b, 0, 0);
    }
    forall d | d in s.db.deployments
      ensures d < s.db.nextDeployment
    {
      RowsSeen(s, 0, d, 0);
    }
  }

  /** A succeeded or failed build, a running or failed deployment, stays exactly as it is while its row exists. */
  lemma FinalIsFinal(steps: seq<Step>, more: seq<Step>, b: nat, d: nat)
    ensures var s, s' := Run(steps), Run(steps + more);
            && (b in s.db.builds && b in s'.db.builds && s.db.builds[b].status in {Succeeded, BuildFailed} ==>
                  s'.db.builds[b] == s.db.builds[b])
            && (d in s.db.deployments && d in s'.db.deployments ==>
                  s.db.deployments[d].status in {Running, DeployFailed} ==> s'.db.deployments[d] == s.db.deployments[d])
  {
    RunMonotone(steps, more);
  }

  /** A poller's row is still waiting for it, and no other worker handles the same row. */
  lemma OnePollerPerRow(steps: seq<Step>, v: nat, w: nat)
    requires v in Run(steps).workers && w in Run(steps).workers
    ensures var s := Run(steps); var x := s.workers[w];
            && (SubjectOf(s.workers[v]) == SubjectOf(x) != NoSubject ==> v == w)
            && (x.BuildPoller? && x.build in s.db.builds ==> s.db.builds[x.build].status == Building)
            && (x.DeployPoller? && x.deployment in s.db.deployments ==>
                  s.db.deployments[x.deployment].status == Deploying)
  {
    var s := Run(steps);
    RunOk(steps);
    if s.workers[w].BuildPoller? { BuildRowOpen(s, w); }
    if s.workers[w].DeployPoller? { DeployRowOpen(s, w); }
  }

  /** Timestamps, image and error of a build always agree with its status; a deployment is never `stopped`. */
  lemma RowsAreConsistent(steps: seq<Step>, b: nat, d: nat)
    ensures var db := Run(steps).db;
            && (b in db.builds ==>
                  var r := db.builds[b];
                  && (r.startedAt.None? ==> r.status in {Queued, BuildFailed})
                  && (r.startedAt.Some? ==> r.status != Queued)
                  && (r.endedAt.Some? <==> r.status in {Succeeded, BuildFailed})
                  && (r.error.Some? <==> r.status == BuildFailed)
                  && (r.imageTag.Some? ==> r.status == Succeeded))
            && (d in db.deployments ==>
                  var row := db.deployments[d];
                  && !row.status.Stopped? && row.build in db.builds
                  && db.builds[row.build].status.Succeeded? && db.builds[row.build].tenant == row.tenant)
  {
    hide Inv, FieldsMatch, ImagedFrom, Recorded;
    var db := Run(steps).db;
    RunOk(steps);
    RowsSeen(Run(steps), b, d, 0);
    if b in db.builds { FieldsMean(db.builds[b]); }
  }

  lemma FieldsMean(r: BuildRow)
    requires FieldsMatch(r)
    ensures r.startedAt.None? ==> r.status in {Queued, BuildFailed}
    ensures r.startedAt.Some? ==> r.status != Queued
    ensures r.endedAt.Some? <==> r.status in {Succeeded, BuildFailed}
    ensures r.error.Some? <==> r.status == BuildFailed
    ensures r.imageTag.Some? ==> r.status == Succeeded
  {}

  // ----- Webhooks -----

  /**
    One delivery row at most per registration and build or deployment; each tells what
    the final row says, to a registration of the row's own tenant.
   */
  lemma DeliveriesTellTheTruth(steps: seq<Step>, i: nat, j: nat)
    requires i in Run(steps).db.deliveries && j in Run(steps).db.deliveries
    ensures var db := Run(steps).db; var v, u := db.deliveries[i], db.deliveries[j];
            && (v.registration == u.registration && SubjectOfPayload(v.payload) == SubjectOfPayload(u.payload) ==>
                  i == j)
            && v.registration in db.registrations && db.registrations[v.registration].tenant == v.tenant
            && (v.payload.BuildPayload? ==>
                  var b := v.payload.build;
                  && b in db.builds && (db.builds[b].status.Succeeded? || db.builds[b].status.BuildFailed?)
                  && v.tenant == v.payload.tenant == db.builds[b].tenant && v.payload.buildStatus == db.builds[b].status
                  && v.event == (if db.builds[b].status.Succeeded? then "build.succeeded" else "build.failed")
                  && v.payload.imageTag == db.builds[b].imageTag && v.payload.error == db.builds[b].error)
            && (v.payload.DeployPayload? ==>
                  var d := v.payload.deployment;
                  && d in db.deployments
                  && (db.deployments[d].status.Running? || db.deployments[d].status.DeployFailed?)
                  && v.tenant == v.payload.tenant == db.deployments[d].tenant
                  && v.payload.deployStatus == db.deployments[d].status
                  && v.event == (if db.deployments[d].status.Running? then "deployment.running"
                                 else "deployment.failed"))
  {
    hide Inv;
    var db := Run(steps).db;
    RunOk(steps);
    DeliveriesSeen(Run(steps));
    assert DeliveryOk(db, i);
    var p := db.deliveries[i].payload;
    RowsAreConsistent(steps, 0, if p.DeployPayload? then p.deployment else 0);
    EventTexts();
  }

  lemma DeliveryIsOk(steps: seq<Step>, i: nat)
    ensures DeliveryOk(Run(steps).db, i)
  {
    RunOk(steps);
    DeliveriesSeen(Run(steps));
  }

  lemma EventTexts()
    ensures "build." + "succeeded" == "build.succeeded" && "build." + "failed" == "build.failed"
    ensures "deployment." + "running" == "deployment.running" && "deployment." + "failed" == "deployment.failed"
  {}

  ghost predicate ExactlyActive(db: Database, order: seq<nat>, tenant: nat) {
    && Distinct(order)
    && forall r :: r in order <==>
         r in db.registrations && db.registrations[r].tenant == tenant && db.registrations[r].active
  }

  predicate Tells(v: Delivery, event: string, p: Payload, r: nat) {
    v.tenant == p.tenant && v.registration == r && v.event == event && v.payload == p
  }

  ghost predicate Addressed(v: Delivery, event: string, p: Payload, to: seq<nat>) {
    v.registration in to && Tells(v, event, p, v.registration)
  }

  ghost predicate Reached(rows: map<nat, Delivery>, event: string, p: Payload, r: nat) {
    exists i :: i in rows && Tells(rows[i], event, p, r)
  }

  /** All old rows are kept, and each recipient has exactly one of the new ones. */
  ghost predicate Delivered(m: map<nat, Delivery>, m': map<nat, Delivery>, event: string, p: Payload, to: seq<nat>) {
    && m.Keys <= m'.Keys && (forall i | i in m :: m'[i] == m[i])
    && (forall i | i in m' - m.Keys :: Addressed(m'[i], event, p, to))
    && (forall r | r in to :: Reached(m' - m.Keys, event, p, r))
    && |m' - m.Keys| == |to|
  }

  /** What an uninterrupted turn of a dispatcher does. */
  ghost predicate Dispatches(s: State, s': State, w: nat, order: seq<nat>)
    requires w in s.workers && s.workers[w].Dispatcher?
  {
    var x := s.workers[w];
    match x.recipients
    case None =>
      s' == if ExactlyActive(s.db, order, x.tenant)
            then SetWorker(s, w, x.(recipients := Some(order), secrets := SecretsOf(s.db.registrations, order))) else s
    case Some(to) =>
      if x.tenant in s.db.tenants && (forall r | r in to :: r in s.db.registrations)
      then Delivered(s.db.deliveries, s'.db.deliveries, x.event, x.payload, to) else s'.db == s.db
  }

  /**
    A dispatcher that is not interrupted first picks exactly the active registrations of
    the row's tenant, and then adds exactly one row for each of those it picked. That the
    select answers with these, in some order, is how DispatcherStep reads the answer; that
    the source's query computes such an order is Webhook.PickTurn.
   */
  lemma DispatchReachesAll(steps: seq<Step>, w: nat, a: Answer)
    requires w in Run(steps).workers && Run(steps).workers[w].Dispatcher? && a.fault.NoFault?
    ensures Dispatches(Run(steps), Apply(Run(steps), Work(w, a)), w, a.order)
  {
    hide Inv, Dispatches, DispatcherStep;
    var s := Run(steps);
    RunOk(steps);
    WorkerSeen(s, w);
    DeliveriesSeen(s);
    DeliveriesNumbered(s.db);
    DispatchTurn(s, w, a);
  }

  lemma DispatchTurn(s: State, w: nat, a: Answer)
    requires w in s.workers && s.workers[w].Dispatcher? && s.workers[w].payload.tenant == s.workers[w].tenant
    requires a.fault.NoFault?
    requires forall i | i in s.db.deliveries :: i < s.db.nextDelivery
    ensures Dispatches(s, DispatcherStep(s, w, s.workers[w], a), w, a.order)
  {
    hide Delivered, DeliveryRows, Distinct;
    var x := s.workers[w];
    match x.recipients
    case None =>
      var chosen := set r | r in a.order;
      assert forall r :: r in a.order <==> r in chosen;
    case Some(to) =>
      DeliveriesAdded(s.db.deliveries, s.db.nextDelivery, x.event, x.payload, to, Signing(x.secrets, a.clock));
  }

  lemma DeliveriesNumbered(db: Database)
    requires DeliveriesOk(db)
    ensures forall i | i in db.deliveries :: i < db.nextDelivery
  {
    forall i | i in db.deliveries
      ensures i < db.nextDelivery
    {
      assert DeliveryOk(db, i);
    }
  }

  lemma DeliveriesAdded(m: map<nat, Delivery>, base: nat, event: string, p: Payload, to: seq<nat>, signing: Signing)
    requires forall i | i in m :: i < base
    ensures Delivered(m, m + DeliveryRows(event, p, to, signing, base), event, p, to)
  {
    hide DeliveryRows, Delivered, Addressed, Reached;
    RowsTell(base, event, p, to, signing);
    RowCount(event, p, to, signing, base);
    RowsJoin(m, DeliveryRows(event, p, to, signing, base), event, p, to);
  }

  lemma RowsJoin(m: map<nat, Delivery>, rows: map<nat, Delivery>, event: string, p: Payload, to: seq<nat>)
    requires (forall i | i in rows :: i !in m) && |rows| == |to|
    requires forall i | i in rows :: Addressed(rows[i], event, p, to)
    requires forall r | r in to :: Reached(rows, event, p, r)
    ensures Delivered(m, m + rows, event, p, to)
  {
    hide Addressed, Reached;
    Disjoint(m, rows);
  }

  lemma Disjoint<V>(m: map<nat, V>, rows: map<nat, V>)
    requires forall i | i in rows :: i !in m
    ensures (m + rows) - m.Keys == rows && m.Keys <= (m + rows).Keys && forall i | i in m :: (m + rows)[i] == m[i]
  {
    assert forall i | i in m + rows :: i in m.Keys || i in rows;
  }

  lemma RowsTell(base: nat, event: string, p: Payload, to: seq<nat>, signing: Signing)
    ensures var rows := DeliveryRows(event, p, to, signing, base);
            && (forall i | i in rows :: Addressed(rows[i], event, p, to))
            && (forall r | r in to :: Reached(rows, event, p, r))
  {
    hide DeliveryRows;
    var rows := DeliveryRows(event, p, to, signing, base);
    forall r | r in to
      ensures Reached(rows, event, p, r)
    {
      var j :| 0 <= j < |to| && to[j] == r;
      assert base + j in rows && Tells(rows[base + j], event, p, r);
    }
  }

  lemma {:induction false} RowCount(event: string, p: Payload, to: seq<nat>, signing: Signing, base: nat)
    ensures |DeliveryRows(event, p, to, signing, base)| == |to|
  {
    if to != [] {
      var n := |to| - 1;
      RowCount(event, p, to[..n], signing, base);
      var front := DeliveryRows(event, p, to[..n], signing, base);
      assert base + n !in front;
    }
  }

  lemma DeliveriesSeen(s: State)
    requires Inv(s)
    ensures DeliveriesOk(s.db)
  {}

  // ----- Cluster objects -----

  /**
    Whatever callers do and wherever they stop, the objects are a prefix of the creation
    order, each as the code writes it.
   */
  lemma ObjectsArePrefix(steps: seq<Step>, ns: string)
    ensures IsPrefix(View(Run(steps), ns)) && Genuine(View(Run(steps), ns))
  {
    var s := Run(steps);
    RunOk(steps);
    if ns in s.cluster {
      assert HasOwner(s.past, ns);
      var t :| t in s.past.committed && NamespaceName(t) == ns;
      NamespaceSeen(s, t);
    }
  }

  predicate PastEnsuring(x: Worker) {
    || (x.BuildHandler? && !x.buildPc.FailingBuild? && (x.buildPc.Ensuring? ==> x.buildPc.k == HARDENING))
    || x.BuildPoller? || x.DeployInserting? || x.DeployHandler?
  }

  /**
    A build handler that got past ensure_tenant_namespace, the poller it becomes, and a
    deploy handler, which never calls it, find the whole set; a kubeconfig request past
    ensure_tenant_rbac finds all nine objects; no matter who else was creating, crashing
    or losing replies meanwhile.
   */
  lemma NormalReturnCompletes(steps: seq<Step>, w: nat)
    requires w in Run(steps).workers
    ensures var s := Run(steps); var x := s.workers[w];
            && (PastEnsuring(x) ==> HasFirst(View(s, NamespaceName(x.tenant)), HARDENING))
            && (x.KubeconfigHandler? && x.k == ALL_OBJECTS ==> HasFirst(View(s, x.ns), ALL_OBJECTS))
  {
    hide Inv;
    RunOk(steps);
    WorkerSeen(Run(steps), w);
  }

  /** The first creator fixes the network policy for good: all egress denied, or DNS at one address only. */
  lemma PolicyIsFixed(steps: seq<Step>, more: seq<Step>, ns: string)
    requires NETWORK_POLICY in View(Run(steps), ns).objects
    ensures var p := View(Run(steps), ns).objects[NETWORK_POLICY]; var n' := View(Run(steps + more), ns);
            && NETWORK_POLICY in n'.objects && n'.objects[NETWORK_POLICY] == p
            && p.NetworkPolicyManifest? && p.ingress == []
            && (p.egress == [] || exists ip :: ip != "" && p.egress == [EgressRule(ip + "/32", 53, ["UDP", "TCP"])])
  {
    ObjectsArePrefix(steps, ns);
    RunMonotone(steps, more);
    var n := View(Run(steps), ns);
    assert Grows(n, View(Run(steps + more), ns));
    assert IsManifest(NETWORK_POLICY, n.objects[NETWORK_POLICY]);
    var dns :| Isolates(NETWORK_POLICY, n.objects[NETWORK_POLICY], dns);
    if dns !in {None, Some("")} { assert dns.value != ""; }
  }

  /** A viewer, once it is there, can get and list pods and their logs, through its own account, and nothing else. */
  lemma ViewerOnlyViews(steps: seq<Step>, ns: string)
    ensures var objects := View(Run(steps), ns).objects;
            && (6 in objects ==> objects[6] == AccountManifest(None))
            && (7 in objects ==> objects[7] == RoleManifest(["pods", "pods/log"], ["get", "list"]))
            && (8 in objects ==> objects[8] == BindingManifest("tenant-viewer-role", "tenant-viewer-sa"))
  {
    hide Isolates;
    ObjectsArePrefix(steps, ns);
    var n := View(Run(steps), ns);
    if 6 in n.objects { ViewerSeen(n, 6); }
    if 7 in n.objects { ViewerSeen(n, 7); }
    if 8 in n.objects { ViewerSeen(n, 8); }
  }

  lemma ViewerSeen(n: Namespace, k: nat)
    requires Genuine(n) && k in n.objects
    ensures IsManifest(k, n.objects[k]) && exists dns :: Isolates(k, n.objects[k], dns)
    ensures k == 6 ==> n.objects[k] == AccountManifest(None)
    ensures k == 7 ==> n.objects[k] == RoleManifest(["pods", "pods/log"], ["get", "list"])
    ensures k == 8 ==> n.objects[k] == BindingManifest("tenant-viewer-role", "tenant-viewer-sa")
  {
    var dns :| Isolates(k, n.objects[k], dns);
  }

  /**
    However often it is redeployed, the app keeps the restricted pod template it was created
    with: not as root, no privilege escalation, no capabilities, no token; and it fits the
    tenant's quota.
   */
  lemma AppKeepsItsTemplate(steps: seq<Step>, ns: string)
    requires View(Run(steps), ns).app.Some?
    ensures var app := View(Run(steps), ns).app.value;
            && app.template == PodTemplate(
                 "tenant-build-sa", false, true, false, ["ALL"], "RuntimeDefault", 8080,
                 Resources(100, 128), Resources(500, 512))
            && !app.template.automountToken && app.template.runAsNonRoot && !app.template.privilegeEscalation
            && 1 <= app.replicas <= 8
            && Quota.Fits(app.replicas, app.template.requests, app.template.limits, Quota.TENANT_BUDGET)
  {
    var s := Run(steps);
    RunOk(steps);
    assert HasOwner(s.past, ns);
    var t :| t in s.past.committed && NamespaceName(t) == ns;
    NamespaceSeen(s, t);
    Quota.SchemaBoundIsExact(View(s, ns).app.value.replicas);
  }

  // ----- Tenants and keys -----

  /** A visible tenant row never carries the placeholder, and no two share a namespace. */
  lemma TenantsAreNamed(steps: seq<Step>, t: nat, u: nat)
    requires t in Run(steps).db.tenants && u in Run(steps).db.tenants
    ensures var rows := Run(steps).db.tenants;
            && rows[t].namespace == NamespaceName(t) != PLACEHOLDER
            && (rows[t].namespace == rows[u].namespace ==> t == u)
  {
    RunOk(steps);
    RowsSeen(Run(steps), 0, 0, t);
    RowsSeen(Run(steps), 0, 0, u);
    NamespaceInjective(t, u);
    NamespaceIsLegal(t);
  }

  predicate Unrevoked(db: Database, k: nat, hash: string) {
    k in db.keys && db.keys[k].hash == hash && !db.keys[k].revoked
  }

  /**
    Which of several matching rows the lookup finds does not matter: there is only one. It
    is refused as unknown when no unrevoked key has the hash, as forbidden when the key is
    another tenant's, as inactive when the tenant is switched off, and granted otherwise.
   */
  lemma AccessIsAuthorisation(steps: seq<Step>, t: nat, hash: string)
    ensures var db := Run(steps).db; var access := VerifyTenant(db, t, hash);
            && (access == Granted <==> Authorised(db, t, hash))
            && (access == Unauthorised <==> forall k :: !Unrevoked(db, k, hash))
            && (access == ForbiddenResource <==> exists k :: Unrevoked(db, k, hash) && db.keys[k].tenant != t)
            && (access == InactiveTenant <==>
                  && t in db.tenants && !db.tenants[t].active
                  && exists k :: Unrevoked(db, k, hash) && db.keys[k].tenant == t)
  {
    hide Inv;
    RunOk(steps);
    KeysSeen(Run(steps));
    LookupIsExact(Run(steps).db, t, hash);
  }

  lemma LookupIsExact(db: Database, t: nat, hash: string)
    requires KeysOk(db)
    ensures var access := VerifyTenant(db, t, hash);
            && (access == Granted <==> Authorised(db, t, hash))
            && (access == Unauthorised <==> forall k :: !Unrevoked(db, k, hash))
            && (access == ForbiddenResource <==> exists k :: Unrevoked(db, k, hash) && db.keys[k].tenant != t)
            && (access == InactiveTenant <==>
                  && t in db.tenants && !db.tenants[t].active
                  && exists k :: Unrevoked(db, k, hash) && db.keys[k].tenant == t)
  {
    assert forall k :: Live(db, k, hash) <==> Unrevoked(db, k, hash);
    if exists k :: Live(db, k, hash) {
      var k :| Live(db, k, hash);
      assert forall l :: Live(db, l, hash) ==> l == k;
      assert Unrevoked(db, k, hash) && forall l :: Unrevoked(db, l, hash) ==> l == k;
      assert Authorised(db, t, hash) <==> KeyOpens(db, k, t, hash);
    } else {
      if Authorised(db, t, hash) {
        var k :| k in db.keys && KeyOpens(db, k, t, hash);
        assert Live(db, k, hash);
      }
    }
  }

  /** A revoked key opens nothing, for anybody, ever again, and while its row is there its hash authorises nobody. */
  lemma RevokedForever(steps: seq<Step>, more: seq<Step>, k: nat, t: nat)
    requires k in Run(steps).db.keys && Run(steps).db.keys[k].revoked
    ensures var db, hash := Run(steps + more).db, Run(steps).db.keys[k].hash;
            && (forall h :: !KeyOpens(db, k, t, h))
            && (k in db.keys ==> db.keys[k].hash == hash && !Authorised(db, t, hash))
  {
    hide Inv;
    RunMonotone(steps, more);
    RunOk(steps + more);
    KeysSeen(Run(steps + more));
  }
}
