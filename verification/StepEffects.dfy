/**
  What one step may do to two consecutive states: what it never takes back, and
  what a step taken for one tenant leaves alone.
 */
module StepEffects {
  import opened Options
  import opened Naming
  import opened Kubernetes
  import opened ControlPlane
  import opened Invariant
  import opened StepProof

  /** Final rows keep their value for as long as they exist, revoked keys stay revoked, keys are not reused. */
  ghost predicate RowsMonotone(db: Database, db': Database) {
    && (forall b | b in db.builds && b in db'.builds && FinalBuild(db.builds[b].status) ::
          db'.builds[b] == db.builds[b])
    && (forall d | d in db.deployments && d in db'.deployments && FinalDeploy(db.deployments[d].status) ::
          db'.deployments[d] == db.deployments[d])
    && (forall b | b in db'.builds :: b in db.builds || b >= db.nextBuild)
    && (forall d | d in db'.deployments :: d in db.deployments || d >= db.nextDeployment)
    && (forall k | k in db.keys && k in db'.keys ::
          && db'.keys[k].tenant == db.keys[k].tenant && db'.keys[k].hash == db.keys[k].hash
          && (db.keys[k].revoked ==> db'.keys[k].revoked))
    && (forall k | k in db'.keys :: k in db.keys || k >= db.nextKey)
    && db.nextBuild <= db'.nextBuild && db.nextDeployment <= db'.nextDeployment && db.nextKey <= db'.nextKey
  }

  /** Rows as above, and nothing in the cluster is undone or rewritten. */
  ghost predicate Monotone(s: State, s': State) {
    RowsMonotone(s.db, s'.db) && ClusterGrows(s.cluster, s'.cluster)
  }

  /** Tenant u's rows are the same in both databases. */
  ghost predicate SameRows(db: Database, db': Database, u: nat) {
    && (u in db.tenants <==> u in db'.tenants) && (u in db.tenants ==> db'.tenants[u] == db.tenants[u])
    && (forall b | b in db.builds && db.builds[b].tenant == u :: b in db'.builds && db'.builds[b] == db.builds[b])
    && (forall b | b in db'.builds && db'.builds[b].tenant == u :: b in db.builds && db.builds[b].tenant == u)
    && (forall d | d in db.deployments && db.deployments[d].tenant == u ::
          d in db'.deployments && db'.deployments[d] == db.deployments[d])
    && (forall d | d in db'.deployments && db'.deployments[d].tenant == u ::
          d in db.deployments && db.deployments[d].tenant == u)
    && (forall k | k in db.keys && db.keys[k].tenant == u :: k in db'.keys && db'.keys[k] == db.keys[k])
    && (forall k | k in db'.keys && db'.keys[k].tenant == u :: k in db.keys && db.keys[k].tenant == u)
    && (forall r | r in db.registrations && db.registrations[r].tenant == u ::
          r in db'.registrations && db'.registrations[r] == db.registrations[r])
    && (forall r | r in db'.registrations && db'.registrations[r].tenant == u ::
          r in db.registrations && db.registrations[r].tenant == u)
    && (forall i | i in db.deliveries && db.deliveries[i].tenant == u ::
          i in db'.deliveries && db'.deliveries[i] == db.deliveries[i])
    && (forall i | i in db'.deliveries && db'.deliveries[i].tenant == u ::
          i in db.deliveries && db.deliveries[i].tenant == u)
  }

  ghost predicate SameWorkers(s: State, s': State, u: nat) {
    && (forall w | w in s.workers && s.workers[w].tenant == u :: w in s'.workers && s'.workers[w] == s.workers[w])
    && (forall w | w in s'.workers && s'.workers[w].tenant == u :: w in s.workers && s.workers[w].tenant == u)
  }

  /** Tenant u's rows, every object in its namespace and its workers are the same in both states. */
  ghost predicate SameFor(s: State, s': State, u: nat) {
    SameRows(s.db, s'.db, u) && View(s, NamespaceName(u)) == View(s', NamespaceName(u)) && SameWorkers(s, s', u)
  }

  /** A step done for tenant t. */
  ghost predicate Confined(s: State, s': State, t: nat) {
    Monotone(s, s') && forall u: nat | u != t :: SameFor(s, s', u)
  }

  lemma SameDatabase(db: Database, u: nat)
    ensures SameRows(db, db, u) && RowsMonotone(db, db)
  {}

  lemma SetWorkerConfined(s: State, s': State, w: nat, x: Worker, t: nat)
    requires Confined(s, s', t) && s'.workers == s.workers && w in s.workers && s.workers[w].tenant == t
    requires x.tenant == t
    ensures Confined(s, SetWorker(s', w, x), t)
  {
    hide SameRows, RowsMonotone, ClusterGrows;
    forall u: nat | u != t
      ensures SameFor(s, SetWorker(s', w, x), u)
    {
      assert SameFor(s, s', u);
    }
  }

  lemma EndWorkerConfined(s: State, s': State, w: nat, t: nat)
    requires Confined(s, s', t) && s'.workers == s.workers && (w in s.workers ==> s.workers[w].tenant == t)
    ensures Confined(s, EndWorker(s', w), t)
  {
    hide SameRows, RowsMonotone, ClusterGrows;
    forall u: nat | u != t
      ensures SameFor(s, EndWorker(s', w), u)
    {
      assert SameFor(s, s', u);
    }
  }

  lemma CallConfined(s: State, t: nat, n: Namespace)
    requires Grows(View(s, NamespaceName(t)), n)
    ensures Confined(s, PutNamespace(s, NamespaceName(t), n), t)
  {
    hide SameRows, RowsMonotone, Grows;
    var s' := PutNamespace(s, NamespaceName(t), n);
    SameDatabase(s.db, 0);
    forall ns | ns in s.cluster
      ensures ns in s'.cluster && Grows(s.cluster[ns], s'.cluster[ns])
    {
      GrowsReflexive(s.cluster[ns]);
    }
    forall u: nat | u != t
      ensures SameFor(s, s', u)
    {
      SameDatabase(s.db, u);
      NamespaceInjective(t, u);
    }
  }

  lemma GrowsReflexive(n: Namespace)
    ensures Grows(n, n)
  {}

  lemma NothingConfined(s: State, t: nat)
    ensures Confined(s, s, t)
  {
    GrowsReflexive(View(s, NamespaceName(t)));
    CallConfined(s, t, View(s, NamespaceName(t)));
  }

  /** A step that only writes rows of tenant t. */
  lemma RowsConfined(s: State, s': State, t: nat)
    requires s'.cluster == s.cluster && s'.workers == s.workers && RowsMonotone(s.db, s'.db)
    requires forall u: nat | u != t :: SameRows(s.db, s'.db, u)
    ensures Confined(s, s', t)
  {
    hide SameRows, RowsMonotone;
  }

  lemma BuildConfined(s: State, b: nat, row: BuildRow)
    requires b in s.db.builds && row.tenant == s.db.builds[b].tenant && !FinalBuild(s.db.builds[b].status)
    ensures Confined(s, PutBuild(s, b, row), row.tenant)
  {
    RowsConfined(s, PutBuild(s, b, row), row.tenant);
  }

  lemma DeployConfined(s: State, d: nat, row: DeployRow)
    requires d in s.db.deployments && row.tenant == s.db.deployments[d].tenant
    requires !FinalDeploy(s.db.deployments[d].status)
    ensures Confined(s, PutDeployment(s, d, row), row.tenant)
  {
    RowsConfined(s, PutDeployment(s, d, row), row.tenant);
  }

  lemma InsertBuildConfined(s: State, row: BuildRow)
    requires s.db.nextBuild !in s.db.builds
    ensures Confined(s, InsertBuild(s, row), row.tenant)
  {
    RowsConfined(s, InsertBuild(s, row), row.tenant);
  }

  lemma InsertDeploymentConfined(s: State, row: DeployRow)
    requires s.db.nextDeployment !in s.db.deployments
    ensures Confined(s, InsertDeployment(s, row), row.tenant)
  {
    RowsConfined(s, InsertDeployment(s, row), row.tenant);
  }

  lemma InsertKeyConfined(s: State, row: KeyRow)
    requires s.db.nextKey !in s.db.keys
    ensures Confined(s, InsertKey(s, row), row.tenant)
  {
    RowsConfined(s, InsertKey(s, row), row.tenant);
  }

  lemma InsertRegistrationConfined(s: State, row: Registration)
    requires s.db.nextRegistration !in s.db.registrations
    ensures Confined(s, InsertRegistration(s, row), row.tenant)
  {
    RowsConfined(s, InsertRegistration(s, row), row.tenant);
  }

  lemma DeliveriesConfined(s: State, event: string, p: Payload, to: seq<nat>, signing: Signing)
    requires forall i | i in s.db.deliveries :: i < s.db.nextDelivery
    ensures Confined(s, InsertDeliveries(s, event, p, to, signing), p.tenant)
  {
    RowsConfined(s, InsertDeliveries(s, event, p, to, signing), p.tenant);
  }

  // ----- Workers -----

  lemma CallsGrow(n: Namespace, k: nat, m: Manifest, name: string, spec: ImageSpec, image: Option<string>,
                  replicas: int)
    ensures Grows(n, CreateObject(n, k, m).0) && Grows(n, CreateImage(n, name, spec).0)
    ensures Grows(n, CreateApp(n, image, replicas).0) && Grows(n, PatchApp(n, image, replicas).0)
    ensures Grows(n, CreateService(n).0)
  {}

  /** The worker moves on, or ends, after an effect confined to its tenant. */
  lemma FinishConfined(s: State, s1: State, s': State, w: nat, t: nat)
    requires Confined(s, s1, t) && s1.workers == s.workers && w in s.workers && s.workers[w].tenant == t
    requires w in s'.workers ==> s'.workers[w].tenant == t
    requires s' == if w in s'.workers then SetWorker(s1, w, s'.workers[w]) else EndWorker(s1, w)
    ensures Confined(s, s', t)
  {
    hide Confined;
    if w in s'.workers { SetWorkerConfined(s, s1, w, s'.workers[w], t); } else { EndWorkerConfined(s, s1, w, t); }
  }

  lemma BuildCallConfined(s: State, w: nat, a: Answer)
    requires Inv(s) && w in s.workers && s.workers[w].BuildHandler?
    requires s.workers[w].buildPc.Ensuring? || s.workers[w].buildPc.CreatingImage?
    ensures Confined(s, BuildHandlerStep(s, w, s.workers[w], a), s.workers[w].tenant)
  {
    hide Inv, Confined, Grows, BuildOpen, Prepared, CreateObject, CreateImage, ManifestFor, SpecOf;
    var x := s.workers[w];
    var s', t := BuildHandlerStep(s, w, x, a), x.tenant;
    WorkerSeen(s, w);
    var n := View(s', x.ns);
    var k := if x.buildPc.Ensuring? && x.buildPc.k < HARDENING then x.buildPc.k else 0;
    CallsGrow(View(s, x.ns), k, ManifestFor(k, a.dns), ImageName(x.build), SpecOf(t, x.build, x.source), None, 0);
    GrowsReflexive(View(s, x.ns));
    CallConfined(s, t, n);
    FinishConfined(s, PutNamespace(s, x.ns, n), s', w, t);
  }

  lemma BuildCommitConfined(s: State, w: nat, a: Answer)
    requires Inv(s) && w in s.workers && s.workers[w].BuildHandler?
    requires !s.workers[w].buildPc.Ensuring? && !s.workers[w].buildPc.CreatingImage?
    ensures Confined(s, BuildHandlerStep(s, w, s.workers[w], a), s.workers[w].tenant)
  {
    hide Inv, Confined, ImagedFrom;
    var x := s.workers[w];
    var s', t, b := BuildHandlerStep(s, w, x, a), x.tenant, x.build;
    WorkerSeen(s, w);
    RowsSeen(s, b, 0, 0);
    if b in s.db.builds && s'.db != s.db { BuildConfined(s, b, s'.db.builds[b]); } else { NothingConfined(s, t); }
    FinishConfined(s, s.(db := s'.db, past := s'.past), s', w, t);
  }

  lemma DeployCallConfined(s: State, w: nat, a: Answer)
    requires Inv(s) && w in s.workers && s.workers[w].DeployHandler?
    requires s.workers[w].deployPc in {CreatingApp, PatchingApp, CreatingService}
    ensures Confined(s, DeployHandlerStep(s, w, s.workers[w], a), s.workers[w].tenant)
  {
    hide Inv, Confined, Grows, Deployable, DeployOpen, CreateApp, PatchApp, CreateService, ManifestFor, SpecOf;
    var x := s.workers[w];
    var s', t := DeployHandlerStep(s, w, x, a), x.tenant;
    WorkerSeen(s, w);
    var n := View(s', x.ns);
    CallsGrow(View(s, x.ns), 0, ManifestFor(0, None), "", SpecOf(0, 0, Source("", "", None)), x.image, x.replicas);
    GrowsReflexive(View(s, x.ns));
    CallConfined(s, t, n);
    FinishConfined(s, PutNamespace(s, x.ns, n), s', w, t);
  }

  lemma DeployCommitConfined(s: State, w: nat, a: Answer)
    requires Inv(s) && w in s.workers && s.workers[w].DeployHandler?
    requires s.workers[w].deployPc in {CommittingDeploying, RefreshingDeploying, FailingDeploy}
    ensures Confined(s, DeployHandlerStep(s, w, s.workers[w], a), s.workers[w].tenant)
  {
    hide Inv, Confined, Deployable;
    var x := s.workers[w];
    var s', t, d := DeployHandlerStep(s, w, x, a), x.tenant, x.deployment;
    WorkerSeen(s, w);
    RowsSeen(s, 0, d, 0);
    if d in s.db.deployments && s'.db != s.db {
      DeployConfined(s, d, s'.db.deployments[d]);
    } else {
      NothingConfined(s, t);
    }
    FinishConfined(s, s.(db := s'.db, past := s'.past), s', w, t);
  }

  lemma BuildPollerConfined(s: State, w: nat, a: Answer)
    requires Inv(s) && w in s.workers && s.workers[w].BuildPoller?
    ensures Confined(s, BuildPollerStep(s, w, s.workers[w], a), s.workers[w].tenant)
  {
    hide Inv, Confined, BuildVerdict, View, BuildResolveStep, BuildTimeoutStep;
    var x := s.workers[w];
    match x.buildPhase
    case BuildCommitting(v) => BuildResolveConfined(s, w, v, a);
    case BuildCommittingTimeout => BuildTimeoutConfined(s, w, a);
    case _ =>
      NothingConfined(s, x.tenant);
      FinishConfined(s, s, BuildPollerStep(s, w, x, a), w, x.tenant);
  }

  lemma BuildResolveConfined(s: State, w: nat, v: Verdict, a: Answer)
    requires Inv(s) && w in s.workers && s.workers[w].BuildPoller?
    ensures Confined(s, BuildResolveStep(s, w, s.workers[w], v, a), s.workers[w].tenant)
  {
    hide Inv, Confined, PayloadOfBuild, BuildText;
    var x := s.workers[w];
    var s', t, b := BuildResolveStep(s, w, x, v, a), x.tenant, x.build;
    BuildRowOpen(s, w);
    if Lands(a) && b in s.db.builds && !v.Unknown? {
      var row := Resolved(s.db.builds[b], v, a.now);
      BuildConfined(s, b, row);
      FinishConfined(s, PutBuild(s, b, row), s', w, t);
    } else {
      NothingConfined(s, t);
      FinishConfined(s, s, s', w, t);
    }
  }

  lemma BuildTimeoutConfined(s: State, w: nat, a: Answer)
    requires Inv(s) && w in s.workers && s.workers[w].BuildPoller?
    ensures Confined(s, BuildTimeoutStep(s, w, s.workers[w], a), s.workers[w].tenant)
  {
    hide Inv, Confined, TimeoutError;
    var x := s.workers[w];
    var s', t, b := BuildTimeoutStep(s, w, x, a), x.tenant, x.build;
    BuildRowOpen(s, w);
    if Lands(a) && b in s.db.builds {
      var row := BuildTimedOut(s.db.builds[b], a.now);
      BuildConfined(s, b, row);
      FinishConfined(s, PutBuild(s, b, row), s', w, t);
    } else {
      NothingConfined(s, t);
      FinishConfined(s, s, s', w, t);
    }
  }

  /** The row of a live poller is its tenant's and is not final. */
  lemma BuildRowOpen(s: State, w: nat)
    requires Inv(s) && w in s.workers && s.workers[w].BuildPoller?
    ensures var x := s.workers[w];
            x.build in s.db.builds ==>
              s.db.builds[x.build].status == Building && s.db.builds[x.build].tenant == x.tenant
  {
    WorkerSeen(s, w);
    RowsSeen(s, s.workers[w].build, 0, 0);
  }

  lemma DeployRowOpen(s: State, w: nat)
    requires Inv(s) && w in s.workers && s.workers[w].DeployPoller?
    ensures var x := s.workers[w];
            x.deployment in s.db.deployments ==>
              s.db.deployments[x.deployment].status == Deploying && s.db.deployments[x.deployment].tenant == x.tenant
  {
    WorkerSeen(s, w);
    RowsSeen(s, 0, s.workers[w].deployment, 0);
  }

  lemma DeployPollerConfined(s: State, w: nat, a: Answer)
    requires Inv(s) && w in s.workers && s.workers[w].DeployPoller?
    ensures Confined(s, DeployPollerStep(s, w, s.workers[w], a), s.workers[w].tenant)
  {
    hide Inv, Confined, RolloutVerdict, View, DeployResolveStep, DeployTimeoutStep;
    var x := s.workers[w];
    match x.deployPhase
    case DeployCommitting(running) => DeployResolveConfined(s, w, running, a);
    case DeployCommittingTimeout => DeployTimeoutConfined(s, w, a);
    case _ =>
      NothingConfined(s, x.tenant);
      FinishConfined(s, s, DeployPollerStep(s, w, x, a), w, x.tenant);
  }

  lemma DeployResolveConfined(s: State, w: nat, running: bool, a: Answer)
    requires Inv(s) && w in s.workers && s.workers[w].DeployPoller?
    ensures Confined(s, DeployResolveStep(s, w, s.workers[w], running, a), s.workers[w].tenant)
  {
    hide Inv, Confined, PayloadOfDeployment, DeployText;
    var x := s.workers[w];
    var s', t, d := DeployResolveStep(s, w, x, running, a), x.tenant, x.deployment;
    DeployRowOpen(s, w);
    if Lands(a) && d in s.db.deployments {
      var row := Rolled(s.db.deployments[d], running);
      DeployConfined(s, d, row);
      FinishConfined(s, PutDeployment(s, d, row), s', w, t);
    } else {
      NothingConfined(s, t);
      FinishConfined(s, s, s', w, t);
    }
  }

  lemma DeployTimeoutConfined(s: State, w: nat, a: Answer)
    requires Inv(s) && w in s.workers && s.workers[w].DeployPoller?
    ensures Confined(s, DeployTimeoutStep(s, w, s.workers[w], a), s.workers[w].tenant)
  {
    hide Inv, Confined;
    var x := s.workers[w];
    var s', t, d := DeployTimeoutStep(s, w, x, a), x.tenant, x.deployment;
    DeployRowOpen(s, w);
    if Lands(a) && d in s.db.deployments {
      var row := s.db.deployments[d].(status := DeployFailed);
      DeployConfined(s, d, row);
      FinishConfined(s, PutDeployment(s, d, row), s', w, t);
    } else {
      NothingConfined(s, t);
      FinishConfined(s, s, s', w, t);
    }
  }

  lemma KeysUnused(s: State)
    requires Inv(s)
    ensures s.db.nextBuild !in s.db.builds && s.db.nextDeployment !in s.db.deployments
    ensures s.db.nextKey !in s.db.keys && s.db.nextRegistration !in s.db.registrations
    ensures forall i | i in s.db.deliveries :: i < s.db.nextDelivery
  {
    RowsSeen(s, s.db.nextBuild, s.db.nextDeployment, 0);
    forall i | i in s.db.deliveries
      ensures i < s.db.nextDelivery
    {
      assert DeliveryOk(s.db, i);
    }
  }

  lemma DispatcherConfined(s: State, w: nat, a: Answer)
    requires Inv(s) && w in s.workers && s.workers[w].Dispatcher?
    ensures Confined(s, DispatcherStep(s, w, s.workers[w], a), s.workers[w].tenant)
  {
    hide Inv, Confined, Matches;
    var x := s.workers[w];
    var s', t := DispatcherStep(s, w, x, a), x.tenant;
    WorkerSeen(s, w);
    KeysUnused(s);
    NothingConfined(s, t);
    if s' != s {
      if s'.db != s.db { DeliveriesConfined(s, x.event, x.payload, x.recipients.value, Signing(x.secrets, a.clock)); }
      FinishConfined(s, s.(db := s'.db, past := s'.past), s', w, t);
    }
  }

  lemma DeployInsertingConfined(s: State, w: nat, a: Answer)
    requires Inv(s) && w in s.workers && s.workers[w].DeployInserting?
    ensures Confined(s, DeployInsertingStep(s, w, s.workers[w], a), s.workers[w].tenant)
  {
    hide Inv, Confined;
    var x := s.workers[w];
    var s', t := DeployInsertingStep(s, w, x, a), x.tenant;
    KeysUnused(s);
    NothingConfined(s, t);
    if s'.db != s.db { InsertDeploymentConfined(s, DeployRow(t, x.build, Pending, x.replicas)); }
    FinishConfined(s, s.(db := s'.db, past := s'.past), s', w, t);
  }

  lemma AdmittedConfined(s: State, w: nat, a: Answer)
    requires Inv(s) && w in s.workers && s.workers[w].Admitted?
    ensures Confined(s, AdmittedStep(s, w, s.workers[w], a), s.workers[w].tenant)
  {
    hide Inv, Confined, Bookkept;
    var x := s.workers[w];
    var s', t := AdmittedStep(s, w, x, a), x.tenant;
    if !Lands(a) || t !in s.db.tenants || x.request.NewDeployment? || x.request.Kubeconfig? {
      NothingConfined(s, t);
      FinishConfined(s, s, s', w, t);
    } else if x.request.NewBuild? {
      var row := BuildRow(t, x.request.source, Queued, None, None, None, None);
      KeysUnused(s);
      InsertBuildConfined(s, row);
      FinishConfined(s, InsertBuild(s, row), s', w, t);
    } else {
      BookkeptConfined(s, t, x.request);
      FinishConfined(s, Bookkept(s, t, x.request), s', w, t);
    }
  }

  lemma BookkeptConfined(s: State, t: nat, request: Request)
    requires Inv(s)
    ensures Confined(s, Bookkept(s, t, request), t)
  {
    hide Inv, Confined, HashTaken, NameTaken;
    KeysUnused(s);
    NothingConfined(s, t);
    if Bookkept(s, t, request) != s {
      match request
      case NewKey(hash, name) => InsertKeyConfined(s, KeyRow(t, hash, name, false));
      case RevokeKey(k) => RevokeConfined(s, k);
      case Register(secret) => InsertRegistrationConfined(s, Registration(t, secret, true));
      case _ =>
    }
  }

  lemma RevokeConfined(s: State, k: nat)
    requires k in s.db.keys
    ensures Confined(s, s.(db := s.db.(keys := s.db.keys[k := s.db.keys[k].(revoked := true)])), s.db.keys[k].tenant)
  {
    RowsConfined(s, s.(db := s.db.(keys := s.db.keys[k := s.db.keys[k].(revoked := true)])), s.db.keys[k].tenant);
  }

  lemma KubeconfigConfined(s: State, w: nat, a: Answer)
    requires Inv(s) && w in s.workers && s.workers[w].KubeconfigHandler?
    ensures Confined(s, KubeconfigStep(s, w, s.workers[w], a), s.workers[w].tenant)
  {
    hide Inv, Confined, Grows;
    var x := s.workers[w];
    var s', t := KubeconfigStep(s, w, x, a), x.tenant;
    WorkerSeen(s, w);
    var n := View(s', x.ns);
    var k := if x.k < ALL_OBJECTS then x.k else 0;
    CallsGrow(View(s, x.ns), k, ManifestFor(k, a.dns), "", SpecOf(0, 0, Source("", "", None)), None, 0);
    GrowsReflexive(View(s, x.ns));
    CallConfined(s, t, n);
    FinishConfined(s, PutNamespace(s, x.ns, n), s', w, t);
  }

  lemma WorkConfined(s: State, w: nat, a: Answer)
    requires Inv(s) && w in s.workers
    ensures Confined(s, WorkStep(s, w, a), s.workers[w].tenant)
  {
    hide Inv, Confined, BuildHandlerStep, BuildPollerStep, DeployHandlerStep, DeployPollerStep, DispatcherStep,
      AdmittedStep, DeployInsertingStep, KubeconfigStep;
    match s.workers[w]
    case TenantTransaction(t) => NothingConfined(s, t);
    case Admitted(_, _) => AdmittedConfined(s, w, a);
    case BuildHandler(_, _, _, _, pc) =>
      if pc.Ensuring? || pc.CreatingImage? { BuildCallConfined(s, w, a); } else { BuildCommitConfined(s, w, a); }
    case DeployInserting(_, _, _, _) => DeployInsertingConfined(s, w, a);
    case DeployHandler(_, _, _, _, _, pc) =>
      if pc.CreatingApp? || pc.PatchingApp? || pc.CreatingService? {
        DeployCallConfined(s, w, a);
      } else {
        DeployCommitConfined(s, w, a);
      }
    case BuildPoller(_, _, _, _, _) => BuildPollerConfined(s, w, a);
    case DeployPoller(_, _, _, _, _) => DeployPollerConfined(s, w, a);
    case KubeconfigHandler(_, _, _) => KubeconfigConfined(s, w, a);
    case Dispatcher(_, _, _, _, _) => DispatcherConfined(s, w, a);
  }

  // ----- All steps -----

  /** The tenant a step is taken for. */
  ghost predicate ActsFor(s: State, step: Step, t: nat) {
    match step
    case BeginTenant => t == s.db.nextTenant
    case CommitTenant(w, _, _) => w in s.workers ==> s.workers[w].tenant == t
    case UpdateTenant(u, _, _) => u == t
    case DeleteTenant(u) => u == t
    case Admit(u, _, _) => u == t
    case Work(w, _) => w in s.workers ==> s.workers[w].tenant == t
    case Crash(w) => w in s.workers ==> s.workers[w].tenant == t
    case KpackReport(ns, _, _) => ns in s.cluster ==> ns == NamespaceName(t)
  }

  lemma SpawnConfined(s: State, s': State, x: Worker)
    requires Inv(s) && s'.workers == s.workers[s.nextWorker := x]
    requires s'.cluster == s.cluster && RowsMonotone(s.db, s'.db)
    requires forall u: nat | u != x.tenant :: SameRows(s.db, s'.db, u)
    ensures Confined(s, s', x.tenant)
  {
    hide CoreOk, WorkerOk, SameRows, RowsMonotone;
    assert s.nextWorker !in s.workers;
  }

  lemma BeginTenantConfined(s: State)
    requires Inv(s)
    ensures Confined(s, BeginTenantStep(s), s.db.nextTenant)
  {
    hide Inv;
    SpawnConfined(s, BeginTenantStep(s), TenantTransaction(s.db.nextTenant));
  }

  lemma AdmitConfined(s: State, t: nat, request: Request)
    requires Inv(s)
    ensures Confined(s, Spawn(s, Admitted(t, request)), t)
  {
    hide Inv;
    SpawnConfined(s, Spawn(s, Admitted(t, request)), Admitted(t, request));
  }

  lemma TenantRowConfined(s: State, t: nat, row: TenantRow)
    requires t in s.db.tenants
    ensures Confined(s, s.(db := s.db.(tenants := s.db.tenants[t := row])), t)
  {
    RowsConfined(s, s.(db := s.db.(tenants := s.db.tenants[t := row])), t);
  }

  lemma DeleteConfined(s: State, t: nat)
    ensures Confined(s, DeleteTenantStep(s, t), t)
  {
    hide SameRows, RowsMonotone;
    assert RowsMonotone(s.db, DeleteTenantStep(s, t).db) by { DeleteMonotone(s.db, t); }
    forall u: nat | u != t
      ensures SameRows(s.db, DeleteTenantStep(s, t).db, u)
    {
      DeleteSameRows(s.db, t, u);
    }
    RowsConfined(s, DeleteTenantStep(s, t), t);
  }

  lemma DeleteMonotone(db: Database, t: nat)
    ensures RowsMonotone(db, WithoutTenant(db, t))
  {}

  lemma DeleteSameRows(db: Database, t: nat, u: nat)
    requires u != t
    ensures SameRows(db, WithoutTenant(db, t), u)
  {}

  lemma CommitTenantConfined(s: State, w: nat, name: string, hash: string)
    requires Inv(s) && w in s.workers && s.workers[w].TenantTransaction?
    ensures Confined(s, CommitTenantStep(s, w, s.workers[w].tenant, name, hash), s.workers[w].tenant)
  {
    hide Inv, Confined, HashTaken;
    var t := s.workers[w].tenant;
    var s' := CommitTenantStep(s, w, t, name, hash);
    KeysUnused(s);
    if HashTaken(s.db, hash) {
      NothingConfined(s, t);
      FinishConfined(s, s, s', w, t);
    } else {
      NewTenantConfined(s, w, t, name, hash);
      FinishConfined(s, s'.(workers := s.workers), s', w, t);
    }
  }

  lemma NewTenantConfined(s: State, w: nat, t: nat, name: string, hash: string)
    requires s.db.nextKey !in s.db.keys && !HashTaken(s.db, hash)
    ensures Confined(s, CommitTenantStep(s, w, t, name, hash).(workers := s.workers), t)
  {
    RowsConfined(s, CommitTenantStep(s, w, t, name, hash).(workers := s.workers), t);
  }

  lemma ReportConfined(s: State, t: nat, image: string, status: ImageStatus)
    requires NamespaceName(t) in s.cluster && image in s.cluster[NamespaceName(t)].images
    ensures Confined(s, KpackReportStep(s, NamespaceName(t), image, status), t)
  {
    hide SameRows, RowsMonotone;
    var ns := NamespaceName(t);
    var s' := KpackReportStep(s, ns, image, status);
    CallConfined(s, t, s'.cluster[ns]);
    forall u: nat | u != t
      ensures SameFor(s, s', u)
    {
      assert SameFor(s, PutNamespace(s, ns, s'.cluster[ns]), u);
    }
  }

  lemma ApplyConfined(s: State, step: Step, t: nat)
    requires Inv(s) && ActsFor(s, step, t)
    ensures Confined(s, Apply(s, step), t)
  {
    hide Inv, Confined, WorkStep, DeleteTenantStep, KpackReportStep, CommitTenantStep, BeginTenantStep, Updated,
      Authorised;
    NothingConfined(s, t);
    match step
    case BeginTenant => BeginTenantConfined(s);
    case CommitTenant(w, name, hash) =>
      if w in s.workers && s.workers[w].TenantTransaction? { CommitTenantConfined(s, w, name, hash); }
    case UpdateTenant(_, _, _) =>
      if t in s.db.tenants { TenantRowConfined(s, t, Updated(s.db.tenants[t], step.newName, step.newActive)); }
    case DeleteTenant(_) => DeleteConfined(s, t);
    case Admit(_, hash, request) =>
      if Authorised(s.db, t, hash) { AdmitConfined(s, t, request); }
    case Work(w, a) =>
      if w in s.workers { WorkConfined(s, w, a); }
    case Crash(w) => EndWorkerConfined(s, s, w, t);
    case KpackReport(ns, image, status) =>
      if ns in s.cluster && image in s.cluster[ns].images { ReportConfined(s, t, image, status); }
  }

  lemma ApplyMonotone(s: State, step: Step)
    requires Inv(s)
    ensures Monotone(s, Apply(s, step))
  {
    hide Inv, Monotone, Apply;
    var t := SomebodyActs(s, step);
    ApplyConfined(s, step, t);
  }

  lemma SomebodyActs(s: State, step: Step) returns (t: nat)
    requires Inv(s)
    ensures ActsFor(s, step, t)
  {
    match step
    case BeginTenant => t := s.db.nextTenant;
    case CommitTenant(w, _, _) => t := if w in s.workers then s.workers[w].tenant else 0;
    case UpdateTenant(u, _, _) => t := u;
    case DeleteTenant(u) => t := u;
    case Admit(u, _, _) => t := u;
    case Work(w, _) => t := if w in s.workers then s.workers[w].tenant else 0;
    case Crash(w) => t := if w in s.workers then s.workers[w].tenant else 0;
    case KpackReport(ns, _, _) =>
      if ns in s.cluster {
        assert HasOwner(s.past, ns);
        t :| t in s.past.committed && NamespaceName(t) == ns;
      } else {
        t := 0;
      }
  }
}
