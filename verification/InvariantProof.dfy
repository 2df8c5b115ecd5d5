/** Every step keeps the invariant: one lemma per kind of effect, then one per kind of worker. */
module InvariantProof {
  import opened Options
  import opened Naming
  import opened Kubernetes
  import opened ControlPlane
  import opened Invariant

  // ----- Stability of what workers rely on -----

  lemma ReportedStable(p: History, p': History, t: nat, b: nat, image: Option<string>)
    requires PastGrows(p, p') && Reported(p, t, b, image)
    ensures Reported(p', t, b, image)
  {
    var status :| Report(NamespaceName(t), ImageName(b), status) in p.reports && VerdictOf(status) == Ready(image);
    assert Report(NamespaceName(t), ImageName(b), status) in p'.reports;
  }

  lemma RecordStable(p: History, p': History, t: nat, image: Option<string>)
    requires PastGrows(p, p') && HasRecord(p, t, image)
    ensures HasRecord(p', t, image)
  {
    var b :| Recorded(p, t, b, image);
    ReportedStable(p, p', t, b, image);
    assert Recorded(p', t, b, image);
  }

  lemma OpenBuildStable(c: Core, c': Core, subject: Subject, t: nat, b: nat, one: BuildStatus, other: BuildStatus)
    requires Guarantee(c, c', subject) && BuildOpen(c, t, b, one, other) && subject != OnBuild(b)
    ensures BuildOpen(c', t, b, one, other)
  {}

  lemma OpenDeployStable(c: Core, c': Core, subject: Subject, t: nat, d: nat, one: DeployStatus, other: DeployStatus)
    requires Guarantee(c, c', subject) && DeployOpen(c, t, d, one, other) && subject != OnDeployment(d)
    ensures DeployOpen(c', t, d, one, other)
  {}

  lemma PreparedStable(c: Core, c': Core, t: nat, k: nat)
    requires ClusterGrows(c.cluster, c'.cluster) && Prepared(c, t, k)
    ensures Prepared(c', t, k)
  {
    assert Grows(c.cluster[NamespaceName(t)], c'.cluster[NamespaceName(t)]);
  }

  lemma ImagedStable(c: Core, c': Core, t: nat, b: nat)
    requires ClusterGrows(c.cluster, c'.cluster) && Imaged(c, t, b)
    ensures Imaged(c', t, b)
  {
    PreparedStable(c, c', t, HARDENING);
  }

  lemma ImagedFromStable(c: Core, c': Core, t: nat, b: nat, source: Source)
    requires ClusterGrows(c.cluster, c'.cluster) && ImagedFrom(c, t, b, source)
    ensures ImagedFrom(c', t, b, source)
  {
    ImagedStable(c, c', t, b);
    assert Grows(c.cluster[NamespaceName(t)], c'.cluster[NamespaceName(t)]);
  }

  lemma MatchStable(c: Core, c': Core, subject: Subject, p: Payload)
    requires Guarantee(c, c', subject) && subject != SubjectOfPayload(p)
    requires p.tenant in c'.db.tenants && Matches(c.db, p)
    requires p.BuildPayload? ==> p.build in c.past.buildOwner
    requires p.DeployPayload? ==> p.deployment in c.past.deployOwner
    ensures Matches(c'.db, p)
  {}

  lemma BuildHandlerStable(c: Core, c': Core, subject: Subject, x: Worker)
    requires x.BuildHandler? && Guarantee(c, c', subject) && BuildHandlerOk(c, x) && subject != OnBuild(x.build)
    ensures BuildHandlerOk(c', x)
  {
    var t, b := x.tenant, x.build;
    match x.buildPc
    case Ensuring(k) =>
      OpenBuildStable(c, c', subject, t, b, Queued, Queued);
      if k > 0 { PreparedStable(c, c', t, k); }
    case CreatingImage =>
      OpenBuildStable(c, c', subject, t, b, Queued, Queued);
      PreparedStable(c, c', t, HARDENING);
    case CommittingBuilding =>
      OpenBuildStable(c, c', subject, t, b, Queued, Queued);
      ImagedFromStable(c, c', t, b, x.source);
    case RefreshingBuilding =>
      OpenBuildStable(c, c', subject, t, b, Building, Building);
      ImagedStable(c, c', t, b);
    case FailingBuild(_) => OpenBuildStable(c, c', subject, t, b, Queued, Building);
  }

  lemma DeployHandlerStable(c: Core, c': Core, subject: Subject, x: Worker)
    requires x.DeployHandler? && Guarantee(c, c', subject) && DeployHandlerOk(c, x)
    requires subject != OnDeployment(x.deployment)
    ensures DeployHandlerOk(c', x)
  {
    var t, d := x.tenant, x.deployment;
    RecordStable(c.past, c'.past, t, x.image);
    PreparedStable(c, c', t, HARDENING);
    match x.deployPc
    case RefreshingDeploying => OpenDeployStable(c, c', subject, t, d, Deploying, Deploying);
    case FailingDeploy => OpenDeployStable(c, c', subject, t, d, Pending, Deploying);
    case _ => OpenDeployStable(c, c', subject, t, d, Pending, Pending);
  }

  lemma BuildPollerStable(c: Core, c': Core, subject: Subject, x: Worker)
    requires x.BuildPoller? && Guarantee(c, c', subject) && BuildPollerOk(c, x) && subject != OnBuild(x.build)
    ensures BuildPollerOk(c', x)
  {
    hide Reported;
    OpenBuildStable(c, c', subject, x.tenant, x.build, Building, Building);
    ImagedStable(c, c', x.tenant, x.build);
    if (x.buildPhase.BuildResolving? || x.buildPhase.BuildCommitting?) && x.buildPhase.verdict.Ready? {
      ReportedStable(c.past, c'.past, x.tenant, x.build, x.buildPhase.verdict.latestImage);
    }
  }

  lemma DispatcherStable(c: Core, c': Core, subject: Subject, x: Worker)
    requires x.Dispatcher? && Guarantee(c, c', subject) && DispatcherOk(c, x) && x.tenant in c.past.committed
    requires subject != SubjectOfPayload(x.payload)
    ensures DispatcherOk(c', x)
  {
    if x.tenant in c'.db.tenants { MatchStable(c, c', subject, x.payload); }
  }

  lemma WorkerStable(c: Core, c': Core, subject: Subject, x: Worker)
    requires Guarantee(c, c', subject) && WorkerOk(c, x)
    requires SubjectOf(x) == NoSubject || SubjectOf(x) != subject
    ensures WorkerOk(c', x)
  {
    hide BuildHandlerOk, BuildPollerOk, DeployHandlerOk, DispatcherOk, HasRecord;
    match x
    case TenantTransaction(_) =>
    case Admitted(_, _) =>
    case BuildHandler(_, _, _, _, _) => BuildHandlerStable(c, c', subject, x);
    case BuildPoller(_, _, _, _, _) => BuildPollerStable(c, c', subject, x);
    case DeployInserting(t, b, image, _) =>
      RecordStable(c.past, c'.past, t, image);
      PreparedStable(c, c', t, HARDENING);
    case DeployHandler(_, _, _, _, _, _) => DeployHandlerStable(c, c', subject, x);
    case DeployPoller(t, _, d, _, _) =>
      OpenDeployStable(c, c', subject, t, d, Deploying, Deploying);
    case Dispatcher(_, _, _, _, _) => DispatcherStable(c, c', subject, x);
    case KubeconfigHandler(t, _, k) =>
      if k > 0 { PreparedStable(c, c', t, k); }
  }

  /** The worker that took the step becomes x; all others are undisturbed. */
  lemma MoveWorker(s: State, s': State, w: nat, x: Worker)
    requires WorkersOk(s) && w in s.workers && s'.workers == s.workers && s'.nextWorker == s.nextWorker
    requires Guarantee(CoreOf(s), CoreOf(s'), SubjectOf(s.workers[w]))
    requires WorkerOk(CoreOf(s'), x)
    requires || SubjectOf(x) in {NoSubject, SubjectOf(s.workers[w])}
             || forall v | v in s.workers :: SubjectOf(s.workers[v]) != SubjectOf(x)
    ensures WorkersOk(SetWorker(s', w, x))
  {
    forall v | v in s.workers && v != w
      ensures WorkerOk(CoreOf(s'), s.workers[v])
    {
      WorkerStable(CoreOf(s), CoreOf(s'), SubjectOf(s.workers[w]), s.workers[v]);
    }
    var s'' := SetWorker(s', w, x);
    assert CoreOf(s'') == CoreOf(s');
    assert forall v | v in s''.workers :: v == w || (v in s.workers && s''.workers[v] == s.workers[v]);
  }

  lemma DropWorker(s: State, s': State, w: nat)
    requires WorkersOk(s) && w in s.workers && s'.workers == s.workers && s'.nextWorker == s.nextWorker
    requires Guarantee(CoreOf(s), CoreOf(s'), SubjectOf(s.workers[w]))
    ensures WorkersOk(EndWorker(s', w))
  {
    forall v | v in s.workers && v != w
      ensures WorkerOk(CoreOf(s'), s.workers[v])
    {
      WorkerStable(CoreOf(s), CoreOf(s'), SubjectOf(s.workers[w]), s.workers[v]);
    }
    var s'' := EndWorker(s', w);
    assert CoreOf(s'') == CoreOf(s');
    assert forall v | v in s''.workers :: v != w && v in s.workers && s''.workers[v] == s.workers[v];
  }

  /** A step taken by nobody: every worker is undisturbed, and one may be added. */
  lemma KeepWorkers(s: State, s': State)
    requires WorkersOk(s) && s'.workers == s.workers && s'.nextWorker == s.nextWorker
    requires Guarantee(CoreOf(s), CoreOf(s'), NoSubject)
    ensures WorkersOk(s')
  {
    forall v | v in s.workers
      ensures WorkerOk(CoreOf(s'), s.workers[v])
    {
      WorkerStable(CoreOf(s), CoreOf(s'), NoSubject, s.workers[v]);
    }
  }

  // ----- Effects on the core -----

  lemma ContentStable(p: History, p': History, t: nat, n: Namespace)
    requires PastGrows(p, p') && ContentOk(p, t, n)
    ensures ContentOk(p', t, n)
  {
    forall name | name in n.images
      ensures ImageOk(p', t, name, n.images[name])
    {
      var b :| BelongsTo(p, t, b, name, n.images[name].spec);
      assert BelongsTo(p', t, b, name, n.images[name].spec);
    }
    if n.app.Some? {
      RecordStable(p, p', t, n.app.value.image);
    }
  }

  lemma ClusterStable(c: Core, c': Core)
    requires ClusterOk(c) && c'.cluster == c.cluster && PastGrows(c.past, c'.past)
    requires forall r | r in c'.past.reports ::
               r in c.past.reports || (r.ns in c.cluster && r.image in c.cluster[r.ns].images)
    ensures ClusterOk(c')
  {
    forall ns | ns in c'.cluster
      ensures HasOwner(c'.past, ns)
    {
      var t :| t in c.past.committed && NamespaceName(t) == ns;
      assert t in c'.past.committed;
    }
    forall t: nat | NamespaceName(t) in c'.cluster
      ensures ContentOk(c'.past, t, c'.cluster[NamespaceName(t)])
    {
      ContentStable(c.past, c'.past, t, c.cluster[NamespaceName(t)]);
    }
  }

  lemma TenantsStable(c: Core, c': Core)
    requires RowsOk(c) && c'.db.tenants == c.db.tenants && c.past.committed <= c'.past.committed
    ensures forall t: nat :: TenantOk(c', t)
  {
    assert forall t: nat :: TenantOk(c, t) ==> TenantOk(c', t);
  }

  lemma TenantCommitted(c: Core, t: nat)
    requires RowsOk(c) && t in c.db.tenants
    ensures t in c.past.committed && c.db.tenants[t].namespace == NamespaceName(t)
  {
    assert TenantOk(c, t);
  }

  /** Rows are kept as they are; the cluster and the history may grow. */
  lemma SameRowsOk(c: Core, c': Core)
    requires RowsOk(c) && PastGrows(c.past, c'.past) && ClusterGrows(c.cluster, c'.cluster)
    requires c'.db.tenants == c.db.tenants && c'.db.builds == c.db.builds && c'.db.deployments == c.db.deployments
    requires c'.past.recorded == c.past.recorded
    ensures RowsOk(c')
  {
    TenantsStable(c, c');
    RowsStable(c, c', 0, 0);
  }

  lemma BuildRowStable(c: Core, c': Core, b: nat)
    requires BuildOk(c, b) && PastGrows(c.past, c'.past) && ClusterGrows(c.cluster, c'.cluster)
    requires b in c'.db.builds ==>
               b in c.db.builds && c'.db.builds[b] == c.db.builds[b] && c.db.builds[b].tenant in c'.db.tenants
    requires b in c'.past.recorded ==> b in c.past.recorded
    ensures BuildOk(c', b)
  {
    hide Reported;
    if b in c'.db.builds {
      var r := c.db.builds[b];
      if r.status.Building? || r.status.Succeeded? {
        ImagedFromStable(c, c', r.tenant, b, r.source);
      }
      if r.status.Succeeded? {
        ReportedStable(c.past, c'.past, r.tenant, b, r.imageTag);
      }
    }
  }

  /** Rows are kept, except possibly those of build b and deployment d, which are fine by themselves. */
  lemma RowsStable(c: Core, c': Core, b: nat, d: nat)
    requires RowsOk(c) && PastGrows(c.past, c'.past) && ClusterGrows(c.cluster, c'.cluster)
    requires forall t | t in c.db.tenants :: t in c'.db.tenants
    requires forall e | e in c.db.builds ::
               e in c'.db.builds && (c'.db.builds[e] == c.db.builds[e] || !FinalBuild(c.db.builds[e].status))
    requires forall e | e in c'.db.builds && e != b :: e in c.db.builds && c'.db.builds[e] == c.db.builds[e]
    requires forall e | e in c'.past.recorded :: e in c.past.recorded || (e == b && BuildOk(c', b))
    requires forall e | e in c'.db.deployments && e != d ::
               e in c.db.deployments && c'.db.deployments[e] == c.db.deployments[e]
    requires forall t: nat :: TenantOk(c', t)
    requires BuildOk(c', b) || (b in c.db.builds && b in c'.db.builds && c'.db.builds[b] == c.db.builds[b])
    requires || DeployOk(c', d)
             || (d in c.db.deployments && d in c'.db.deployments && c'.db.deployments[d] == c.db.deployments[d])
    ensures RowsOk(c')
  {
    forall e: nat
      ensures BuildOk(c', e)
    {
      assert BuildOk(c, e);
      if e != b || !BuildOk(c', b) { BuildRowStable(c, c', e); }
    }
    forall e: nat
      ensures DeployOk(c', e)
    {
      assert DeployOk(c, e);
    }
  }

  lemma DeliveriesStable(db: Database, db': Database)
    requires DeliveriesOk(db) && db'.deliveries == db.deliveries && db'.nextDelivery == db.nextDelivery
    requires forall t | t in db.tenants :: t in db'.tenants
    requires forall r | r in db.registrations :: r in db'.registrations && db'.registrations[r] == db.registrations[r]
    requires forall e | e in db.builds ::
               e in db'.builds && (db'.builds[e] == db.builds[e] || !FinalBuild(db.builds[e].status))
    requires forall e | e in db.deployments ::
               && e in db'.deployments
               && (db'.deployments[e] == db.deployments[e] || !FinalDeploy(db.deployments[e].status))
    ensures DeliveriesOk(db')
  {
    forall i: nat
      ensures DeliveryOk(db', i)
    {
      assert DeliveryOk(db, i);
    }
  }

  ghost function WithNamespace(c: Core, t: nat, n: Namespace): Core {
    c.(cluster := c.cluster[NamespaceName(t) := n])
  }

  lemma NamespaceClusterOk(c: Core, t: nat, n: Namespace)
    requires ClusterOk(c) && t in c.past.committed && ContentOk(c.past, t, n)
    requires Grows(Look(c.cluster, NamespaceName(t)), n)
    ensures ClusterOk(WithNamespace(c, t, n))
    ensures ClusterGrows(c.cluster, WithNamespace(c, t, n).cluster)
  {
    var c' := WithNamespace(c, t, n);
    forall ns | ns in c.cluster
      ensures ns in c'.cluster && Grows(c.cluster[ns], c'.cluster[ns])
    {}
    forall ns | ns in c'.cluster
      ensures HasOwner(c'.past, ns)
    {
      if ns in c.cluster {
        assert HasOwner(c.past, ns);
      } else {
        assert t in c.past.committed && NamespaceName(t) == ns;
      }
    }
    forall u: nat | NamespaceName(u) in c'.cluster
      ensures ContentOk(c'.past, u, c'.cluster[NamespaceName(u)])
    {
      NamespaceInjective(t, u);
    }
  }

  /** A call on the namespace of a committed tenant. */
  lemma NamespaceEffect(c: Core, t: nat, n: Namespace, subject: Subject)
    requires CoreOk(c) && t in c.past.committed && ContentOk(c.past, t, n)
    requires Grows(Look(c.cluster, NamespaceName(t)), n)
    ensures CoreOk(WithNamespace(c, t, n)) && Guarantee(c, WithNamespace(c, t, n), subject)
  {
    var c' := WithNamespace(c, t, n);
    NamespaceClusterOk(c, t, n);
    SameRowsOk(c, c');
  }

  // ----- Effects on the database -----

  lemma BuildRowsOk(s: State, b: nat, row: BuildRow)
    requires RowsOk(CoreOf(s)) && b in s.db.builds && !FinalBuild(s.db.builds[b].status) && b !in s.past.recorded
    requires row.tenant == s.db.builds[b].tenant && BuildOk(CoreOf(PutBuild(s, b, row)), b)
    ensures RowsOk(CoreOf(PutBuild(s, b, row)))
  {
    var c, c' := CoreOf(s), CoreOf(PutBuild(s, b, row));
    TenantsStable(c, c');
    RowsStable(c, c', b, 0);
  }

  lemma BuildGuarantee(s: State, b: nat, row: BuildRow)
    requires b in s.db.builds && !FinalBuild(s.db.builds[b].status) && row.tenant == s.db.builds[b].tenant
    requires b !in s.past.recorded
    ensures Guarantee(CoreOf(s), CoreOf(PutBuild(s, b, row)), OnBuild(b))
  {}

  lemma NotRecorded(c: Core, b: nat)
    requires RowsOk(c) && b in c.db.builds && !FinalBuild(c.db.builds[b].status)
    ensures b !in c.past.recorded && (OwnersOk(c) ==> b in c.past.buildOwner)
  {
    assert BuildOk(c, b);
  }

  lemma BuildEffect(s: State, b: nat, row: BuildRow)
    requires CoreOk(CoreOf(s)) && b in s.db.builds && !FinalBuild(s.db.builds[b].status)
    requires row.tenant == s.db.builds[b].tenant && BuildOk(CoreOf(PutBuild(s, b, row)), b)
    ensures CoreOk(CoreOf(PutBuild(s, b, row))) && Guarantee(CoreOf(s), CoreOf(PutBuild(s, b, row)), OnBuild(b))
  {
    hide ClusterOk, RowsOk, DeliveriesOk, Guarantee;
    var c, c' := CoreOf(s), CoreOf(PutBuild(s, b, row));
    NotRecorded(c, b);
    assert PastGrows(c.past, c'.past);
    ClusterStable(c, c');
    BuildRowsOk(s, b, row);
    DeliveriesStable(c.db, c'.db);
    BuildGuarantee(s, b, row);
  }

  lemma DeployRowsOk(s: State, d: nat, row: DeployRow)
    requires RowsOk(CoreOf(s)) && d in s.db.deployments && row == s.db.deployments[d].(status := row.status)
    requires !row.status.Stopped?
    ensures RowsOk(CoreOf(PutDeployment(s, d, row)))
  {
    var c, c' := CoreOf(s), CoreOf(PutDeployment(s, d, row));
    TenantsStable(c, c');
    assert DeployOk(c', d) by { assert DeployOk(c, d); }
    RowsStable(c, c', 0, d);
  }

  lemma DeployGuarantee(s: State, d: nat, row: DeployRow)
    requires d in s.db.deployments && !FinalDeploy(s.db.deployments[d].status)
    requires row.tenant == s.db.deployments[d].tenant
    ensures Guarantee(CoreOf(s), CoreOf(PutDeployment(s, d, row)), OnDeployment(d))
  {}

  lemma DeployEffect(s: State, d: nat, row: DeployRow)
    requires CoreOk(CoreOf(s)) && d in s.db.deployments && !FinalDeploy(s.db.deployments[d].status)
    requires row == s.db.deployments[d].(status := row.status) && !row.status.Stopped?
    ensures CoreOk(CoreOf(PutDeployment(s, d, row)))
    ensures Guarantee(CoreOf(s), CoreOf(PutDeployment(s, d, row)), OnDeployment(d))
  {
    hide ClusterOk, RowsOk, DeliveriesOk, Guarantee;
    var c, c' := CoreOf(s), CoreOf(PutDeployment(s, d, row));
    ClusterStable(c, c');
    DeployRowsOk(s, d, row);
    DeliveriesStable(c.db, c'.db);
    DeployGuarantee(s, d, row);
  }

  lemma NewBuildRowsOk(s: State, t: nat, source: Source)
    requires RowsOk(CoreOf(s)) && OwnersOk(CoreOf(s)) && t in s.db.tenants
    ensures s.db.nextBuild !in s.db.builds
    ensures RowsOk(CoreOf(InsertBuild(s, BuildRow(t, source, Queued, None, None, None, None))))
  {
    var c, c' := CoreOf(s), CoreOf(InsertBuild(s, BuildRow(t, source, Queued, None, None, None, None)));
    assert BuildOk(c, s.db.nextBuild) && TenantOk(c, t);
    TenantsStable(c, c');
    RowsStable(c, c', s.db.nextBuild, 0);
  }

  lemma InsertBuildGuarantee(s: State, row: BuildRow)
    requires OwnersOk(CoreOf(s)) && s.db.nextBuild !in s.db.builds
    ensures Guarantee(CoreOf(s), CoreOf(InsertBuild(s, row)), NoSubject)
  {}

  lemma InsertBuildEffect(s: State, t: nat, source: Source)
    requires CoreOk(CoreOf(s)) && t in s.db.tenants
    ensures var s' := InsertBuild(s, BuildRow(t, source, Queued, None, None, None, None));
            CoreOk(CoreOf(s')) && Guarantee(CoreOf(s), CoreOf(s'), NoSubject)
  {
    hide ClusterOk, RowsOk, DeliveriesOk, Guarantee;
    var s' := InsertBuild(s, BuildRow(t, source, Queued, None, None, None, None));
    var c, c' := CoreOf(s), CoreOf(s');
    assert t in c.past.committed by { TenantCommitted(c, t); }
    ClusterStable(c, c');
    NewBuildRowsOk(s, t, source);
    DeliveriesStable(c.db, c'.db);
    InsertBuildGuarantee(s, BuildRow(t, source, Queued, None, None, None, None));
  }

  lemma NewDeployRowsOk(s: State, row: DeployRow)
    requires RowsOk(CoreOf(s)) && OwnersOk(CoreOf(s)) && row.tenant in s.db.tenants && row.build in s.db.builds
    requires s.db.builds[row.build].tenant == row.tenant && s.db.builds[row.build].status.Succeeded?
    requires row.status.Pending? && 1 <= row.replicas <= MAX_REPLICAS
    ensures s.db.nextDeployment !in s.db.deployments
    ensures RowsOk(CoreOf(InsertDeployment(s, row)))
  {
    var c, c' := CoreOf(s), CoreOf(InsertDeployment(s, row));
    assert DeployOk(c, s.db.nextDeployment) && TenantOk(c, row.tenant);
    TenantsStable(c, c');
    RowsStable(c, c', 0, s.db.nextDeployment);
  }

  lemma InsertDeploymentGuarantee(s: State, row: DeployRow)
    requires OwnersOk(CoreOf(s)) && s.db.nextDeployment !in s.db.deployments
    ensures Guarantee(CoreOf(s), CoreOf(InsertDeployment(s, row)), NoSubject)
  {}

  lemma InsertDeploymentEffect(s: State, row: DeployRow)
    requires CoreOk(CoreOf(s)) && row.tenant in s.db.tenants && row.build in s.db.builds
    requires s.db.builds[row.build].tenant == row.tenant && s.db.builds[row.build].status.Succeeded?
    requires row.status.Pending? && 1 <= row.replicas <= MAX_REPLICAS
    ensures CoreOk(CoreOf(InsertDeployment(s, row)))
    ensures Guarantee(CoreOf(s), CoreOf(InsertDeployment(s, row)), NoSubject)
  {
    hide ClusterOk, RowsOk, DeliveriesOk, Guarantee;
    var c, c' := CoreOf(s), CoreOf(InsertDeployment(s, row));
    assert row.tenant in c.past.committed by { TenantCommitted(c, row.tenant); }
    ClusterStable(c, c');
    NewDeployRowsOk(s, row);
    DeliveriesStable(c.db, c'.db);
    InsertDeploymentGuarantee(s, row);
  }

  /** The rows a dispatcher adds come after all others. */
  lemma DeliveriesAre(s: State, p: Payload, to: seq<nat>, signing: Signing, i: nat)
    requires DeliveriesOk(s.db) && i in InsertDeliveries(s, EventOf(p), p, to, signing).db.deliveries
    ensures var db, v := s.db, InsertDeliveries(s, EventOf(p), p, to, signing).db.deliveries[i];
            if i < db.nextDelivery then i in db.deliveries && v == db.deliveries[i]
            else
              var j := i - db.nextDelivery;
              i !in db.deliveries && j < |to| && v == RowFor(EventOf(p), p, to[j], j, signing)
  {
    hide DeliveryRows, EventOf, Matches;
    assert DeliveryOk(s.db, i);
  }

  /** A selected registration, with its own secret, of the tenant. */
  ghost predicate RecipientOk(db: Database, t: nat, r: nat, secrets: map<nat, string>) {
    && r in db.registrations && db.registrations[r].tenant == t
    && r in secrets && secrets[r] == db.registrations[r].secret
  }

  lemma DeliveriesStayOk(s: State, p: Payload, to: seq<nat>, signing: Signing)
    requires DeliveriesOk(s.db) && p.tenant in s.db.tenants && Matches(s.db, p)
    requires Undelivered(s.db, SubjectOfPayload(p))
    requires Distinct(to) && forall r | r in to :: RecipientOk(s.db, p.tenant, r, signing.secrets)
    ensures DeliveriesOk(InsertDeliveries(s, EventOf(p), p, to, signing).db)
  {
    hide DeliveryRows, EventOf, Matches;
    var db, db' := s.db, InsertDeliveries(s, EventOf(p), p, to, signing).db;
    var base := db.nextDelivery;
    forall i: nat
      ensures DeliveryOk(db', i)
    {
      assert DeliveryOk(db, i);
      if i in db'.deliveries {
        DeliveriesAre(s, p, to, signing, i);
        MatchesRows(db, db', db'.deliveries[i].payload);
        if i >= base { assert to[i - base] in to; }
      }
    }
    forall i, j | i in db'.deliveries && j in db'.deliveries
          && db'.deliveries[i].registration == db'.deliveries[j].registration
          && SubjectOfPayload(db'.deliveries[i].payload) == SubjectOfPayload(db'.deliveries[j].payload)
      ensures i == j
    {
      DeliveriesAre(s, p, to, signing, i);
      DeliveriesAre(s, p, to, signing, j);
    }
  }

  lemma MatchesRows(db: Database, db': Database, p: Payload)
    requires db'.builds == db.builds && db'.deployments == db.deployments
    ensures Matches(db, p) <==> Matches(db', p)
  {}

  lemma DeliveriesGuarantee(s: State, p: Payload, to: seq<nat>, signing: Signing)
    requires DeliveriesOk(s.db)
    ensures Guarantee(CoreOf(s), CoreOf(InsertDeliveries(s, EventOf(p), p, to, signing)), SubjectOfPayload(p))
  {}

  lemma DeliveriesEffect(s: State, p: Payload, to: seq<nat>, signing: Signing)
    requires CoreOk(CoreOf(s)) && p.tenant in s.db.tenants && Matches(s.db, p) && Undelivered(s.db, SubjectOfPayload(p))
    requires Distinct(to) && forall r | r in to :: RecipientOk(s.db, p.tenant, r, signing.secrets)
    ensures CoreOk(CoreOf(InsertDeliveries(s, EventOf(p), p, to, signing)))
    ensures Guarantee(CoreOf(s), CoreOf(InsertDeliveries(s, EventOf(p), p, to, signing)), SubjectOfPayload(p))
  {
    hide ClusterOk, RowsOk, DeliveriesOk, Guarantee;
    var c, c' := CoreOf(s), CoreOf(InsertDeliveries(s, EventOf(p), p, to, signing));
    ClusterStable(c, c');
    SameRowsOk(c, c');
    DeliveriesStayOk(s, p, to, signing);
    DeliveriesGuarantee(s, p, to, signing);
  }

  /** Only keys, registrations and the flags of tenants change, and no registration goes away. */
  ghost predicate KeysOnly(c: Core, c': Core) {
    && c' == c.(db := c.db.(keys := c'.db.keys, nextKey := c'.db.nextKey,
                            registrations := c'.db.registrations, nextRegistration := c'.db.nextRegistration,
                            tenants := c'.db.tenants, nextTenant := c'.db.nextTenant))
    && (forall r | r in c.db.registrations ::
          r in c'.db.registrations && c'.db.registrations[r] == c.db.registrations[r])
    && (forall r | r in c'.db.registrations :: r in c.db.registrations || r >= c.db.nextRegistration)
    && c'.db.nextRegistration >= c.db.nextRegistration && c'.db.nextTenant >= c.db.nextTenant
    && c'.db.tenants.Keys == c.db.tenants.Keys
    && (forall t | t in c.db.tenants :: c'.db.tenants[t].namespace == c.db.tenants[t].namespace)
  }

  lemma KeysRowsOk(c: Core, c': Core)
    requires RowsOk(c) && OwnersOk(c) && KeysOnly(c, c')
    ensures RowsOk(c') && OwnersOk(c')
  {
    hide ImagedFrom, Recorded, FieldsMatch;
    assert forall t: nat :: t in c'.db.tenants <==> t in c.db.tenants;
    assert forall t: nat :: TenantOk(c, t) ==> TenantOk(c', t);
    RowsStable(c, c', 0, 0);
  }

  lemma KeysGuarantee(c: Core, c': Core)
    requires KeysOnly(c, c')
    ensures Guarantee(c, c', NoSubject)
  {
    assert forall t: nat :: t in c'.db.tenants <==> t in c.db.tenants;
  }

  lemma KeysEffect(c: Core, c': Core)
    requires CoreOk(c) && KeysOk(c'.db) && KeysOnly(c, c')
    ensures CoreOk(c') && Guarantee(c, c', NoSubject)
  {
    hide ClusterOk, RowsOk, OwnersOk, DeliveriesOk, KeysOk, Guarantee;
    ClusterStable(c, c');
    KeysRowsOk(c, c');
    KeysGuarantee(c, c');
    DeliveriesStable(c.db, c'.db);
  }

  lemma DeleteRowsOk(s: State, t: nat)
    requires RowsOk(CoreOf(s))
    ensures RowsOk(CoreOf(DeleteTenantStep(s, t)))
  {
    var c, c' := CoreOf(s), CoreOf(DeleteTenantStep(s, t));
    forall u: nat
      ensures TenantOk(c', u)
    {
      assert TenantOk(c, u);
    }
    forall b: nat
      ensures BuildOk(c', b)
    {
      assert BuildOk(c, b);
      BuildRowStable(c, c', b);
    }
    forall d: nat
      ensures DeployOk(c', d)
    {
      assert DeployOk(c, d);
    }
  }

  lemma DeleteDeliveriesOk(s: State, t: nat)
    requires DeliveriesOk(s.db)
    ensures DeliveriesOk(DeleteTenantStep(s, t).db)
  {
    forall i: nat
      ensures DeliveryOk(DeleteTenantStep(s, t).db, i)
    {
      assert DeliveryOk(s.db, i);
    }
  }

  lemma DeleteOwnersOk(s: State, t: nat)
    requires OwnersOk(CoreOf(s)) && RowsOk(CoreOf(s))
    ensures OwnersOk(CoreOf(DeleteTenantStep(s, t)))
  {
    var c, c' := CoreOf(s), CoreOf(DeleteTenantStep(s, t));
    forall b | b in c.past.buildOwner && c.past.buildOwner[b] in c'.db.tenants
      ensures b in c'.db.builds
    {
      assert BuildOk(c, b);
    }
    forall d | d in c.past.deployOwner && c.past.deployOwner[d] in c'.db.tenants
      ensures d in c'.db.deployments
    {
      assert DeployOk(c, d);
    }
  }

  lemma DeleteGuarantee(s: State, t: nat)
    requires OwnersOk(CoreOf(s))
    ensures Guarantee(CoreOf(s), CoreOf(DeleteTenantStep(s, t)), NoSubject)
  {}

  lemma DeleteEffect(s: State, t: nat)
    requires CoreOk(CoreOf(s))
    ensures CoreOk(CoreOf(DeleteTenantStep(s, t))) && Guarantee(CoreOf(s), CoreOf(DeleteTenantStep(s, t)), NoSubject)
  {
    hide ClusterOk, RowsOk, DeliveriesOk, OwnersOk, Guarantee;
    ClusterStable(CoreOf(s), CoreOf(DeleteTenantStep(s, t)));
    DeleteRowsOk(s, t);
    DeleteOwnersOk(s, t);
    DeleteDeliveriesOk(s, t);
    DeleteGuarantee(s, t);
  }

  lemma CommittedRowsOk(s: State, w: nat, t: nat, name: string, hash: string)
    requires RowsOk(CoreOf(s)) && !HashTaken(s.db, hash)
    ensures RowsOk(CoreOf(CommitTenantStep(s, w, t, name, hash)))
  {
    var c, c' := CoreOf(s), CoreOf(CommitTenantStep(s, w, t, name, hash));
    assert c'.db.tenants == c.db.tenants[t := TenantRow(NamespaceName(t), name, true)];
    forall u: nat
      ensures TenantOk(c', u)
    {
      assert TenantOk(c, u);
    }
    RowsStable(c, c', 0, 0);
  }

  lemma CommitTenantGuarantee(s: State, w: nat, t: nat, name: string, hash: string)
    requires t !in s.past.committed && !HashTaken(s.db, hash)
    ensures Guarantee(CoreOf(s), CoreOf(CommitTenantStep(s, w, t, name, hash)), OnTenant(t))
  {}

  lemma CommittedOwnersOk(s: State, w: nat, t: nat, name: string, hash: string)
    requires OwnersOk(CoreOf(s)) && t < s.db.nextTenant && t !in s.past.committed && !HashTaken(s.db, hash)
    requires RowsOk(CoreOf(s))
    ensures OwnersOk(CoreOf(CommitTenantStep(s, w, t, name, hash)))
  {}

  lemma CommittedKeysOk(s: State, w: nat, t: nat, name: string, hash: string)
    requires KeysOk(s.db) && !HashTaken(s.db, hash)
    ensures KeysOk(CommitTenantStep(s, w, t, name, hash).db)
  {}

  lemma CommitTenantEffect(s: State, w: nat, t: nat, name: string, hash: string)
    requires CoreOk(CoreOf(s)) && t < s.db.nextTenant && t !in s.past.committed && !HashTaken(s.db, hash)
    ensures var s' := CommitTenantStep(s, w, t, name, hash);
            CoreOk(CoreOf(s')) && Guarantee(CoreOf(s), CoreOf(s'), OnTenant(t))
  {
    hide ClusterOk, RowsOk, DeliveriesOk, OwnersOk, KeysOk, Guarantee;
    var s' := CommitTenantStep(s, w, t, name, hash);
    CommittedOwnersOk(s, w, t, name, hash);
    CommittedKeysOk(s, w, t, name, hash);
    var c, c' := CoreOf(s), CoreOf(s');
    ClusterStable(c, c');
    CommittedRowsOk(s, w, t, name, hash);
    DeliveriesStable(c.db, c'.db);
    CommitTenantGuarantee(s, w, t, name, hash);
  }

  /** A further report on an Image that exists. */
  lemma RememberReport(c: Core, r: Report)
    requires CoreOk(c) && r.ns in c.cluster && r.image in c.cluster[r.ns].images
    ensures CoreOk(c.(past := c.past.(reports := c.past.reports + {r})))
  {
    hide ClusterOk, RowsOk, DeliveriesOk, KeysOk;
    var c' := c.(past := c.past.(reports := c.past.reports + {r}));
    ClusterStable(c, c');
    SameRowsOk(c, c');
  }

  lemma StatusContentOk(past: History, t: nat, n: Namespace, image: string, status: ImageStatus)
    requires ContentOk(past, t, n) && image in n.images && Report(NamespaceName(t), image, status) in past.reports
    ensures var n' := n.(images := n.images[image := n.images[image].(status := status)]);
            ContentOk(past, t, n') && Grows(n, n')
  {
    assert n.images != map[];
  }

  lemma ReportEffect(s: State, ns: string, image: string, status: ImageStatus)
    requires CoreOk(CoreOf(s)) && ns in s.cluster && image in s.cluster[ns].images
    ensures var s' := KpackReportStep(s, ns, image, status);
            CoreOk(CoreOf(s')) && Guarantee(CoreOf(s), CoreOf(s'), NoSubject)
  {
    var c, r := CoreOf(s), Report(ns, image, status);
    var c1 := c.(past := c.past.(reports := c.past.reports + {r}));
    assert HasOwner(c.past, ns);
    var t :| t in c.past.committed && NamespaceName(t) == ns;
    RememberReport(c, r);
    StatusContentOk(c1.past, t, s.cluster[ns], image, status);
    NamespaceEffect(c1, t, KpackReportStep(s, ns, image, status).cluster[ns], NoSubject);
  }

  // ----- Calls on a namespace -----

  lemma EmptyContentOk(past: History, t: nat)
    ensures ContentOk(past, t, EMPTY)
  {}

  lemma ManifestIsGenuine(k: nat, dns: Option<string>)
    requires k < ALL_OBJECTS
    ensures IsManifest(k, ManifestFor(k, dns))
  {
    hide ManifestFor, Isolates;
    ManifestsIsolate(k, dns);
  }

  lemma CreateObjectOk(past: History, t: nat, n: Namespace, k: nat, dns: Option<string>)
    requires k < ALL_OBJECTS && ContentOk(past, t, n) && HasFirst(n, k)
    ensures var (n', reply) := CreateObject(n, k, ManifestFor(k, dns));
            ContentOk(past, t, n') && Grows(n, n') && (!reply.NotFound? ==> HasFirst(n', k + 1))
  {
    hide ManifestFor, ImageOk, AppOk, IsManifest;
    var (n', reply) := CreateObject(n, k, ManifestFor(k, dns));
    ManifestIsGenuine(k, dns);
  }

  lemma CreateImageOk(past: History, t: nat, n: Namespace, b: nat, source: Source)
    requires ContentOk(past, t, n) && HasFirst(n, HARDENING) && b in past.buildOwner && past.buildOwner[b] == t
    ensures var (n', reply) := CreateImage(n, ImageName(b), SpecOf(t, b, source));
            && ContentOk(past, t, n') && Grows(n, n')
            && (reply.Done? ==>
                  && HasFirst(n', HARDENING) && ImageName(b) in n'.images
                  && BuiltFrom(n'.images[ImageName(b)].spec, source))
  {
    hide AppOk, IsManifest;
    assert BelongsTo(past, t, b, ImageName(b), SpecOf(t, b, source));
    assert HasBuild(past, t, ImageName(b), SpecOf(t, b, source));
  }

  lemma AppContentOk(past: History, t: nat, n: Namespace, image: Option<string>, replicas: int)
    requires ContentOk(past, t, n) && HasFirst(n, HARDENING) && HasRecord(past, t, image)
    requires 1 <= replicas <= MAX_REPLICAS
    ensures var n' := CreateApp(n, image, replicas).0; ContentOk(past, t, n') && Grows(n, n')
    ensures var n' := PatchApp(n, image, replicas).0; ContentOk(past, t, n') && Grows(n, n')
    ensures var n' := CreateService(n).0; ContentOk(past, t, n') && Grows(n, n')
  {}

  lemma ViewOk(s: State, t: nat)
    requires ClusterOk(CoreOf(s))
    ensures ContentOk(s.past, t, View(s, NamespaceName(t)))
  {
    EmptyContentOk(s.past, t);
  }

  /** What a call on the tenant's own namespace does to the whole state. */
  lemma CallEffect(s: State, t: nat, n: Namespace, subject: Subject)
    requires CoreOk(CoreOf(s)) && t in s.past.committed
    requires ContentOk(s.past, t, n) && Grows(View(s, NamespaceName(t)), n)
    ensures var s' := PutNamespace(s, NamespaceName(t), n);
            CoreOk(CoreOf(s')) && Guarantee(CoreOf(s), CoreOf(s'), subject) && View(s', NamespaceName(t)) == n
  {
    hide ClusterOk, RowsOk, DeliveriesOk, OwnersOk, KeysOk, ContentOk;
    NamespaceEffect(CoreOf(s), t, n, subject);
  }
}
