/** Every step of the control plane keeps the invariant, worker by worker. */
module StepProof {
  import opened Options
  import opened Naming
  import opened Kubernetes
  import opened ControlPlane
  import opened Invariant
  import opened InvariantProof

  lemma Reflexive(c: Core, subject: Subject)
    ensures Guarantee(c, c, subject)
  {}

  /** A worker that only changes itself. */
  lemma OnlyWorker(s: State, w: nat, x: Worker)
    requires Inv(s) && w in s.workers && WorkerOk(CoreOf(s), x) && SubjectOf(x) in {NoSubject, SubjectOf(s.workers[w])}
    ensures Inv(SetWorker(s, w, x))
  {
    hide CoreOk, WorkerOk, Guarantee;
    Reflexive(CoreOf(s), SubjectOf(s.workers[w]));
    MoveWorker(s, s, w, x);
  }

  lemma WorkerEnds(s: State, w: nat)
    requires Inv(s)
    ensures Inv(EndWorker(s, w))
  {
    hide CoreOk, WorkerOk, Guarantee;
    if w in s.workers {
      Reflexive(CoreOf(s), SubjectOf(s.workers[w]));
      DropWorker(s, s, w);
    } else {
      assert EndWorker(s, w) == s;
    }
  }

  lemma NamespaceSeen(s: State, t: nat)
    requires Inv(s)
    ensures ContentOk(s.past, t, View(s, NamespaceName(t)))
  {
    ViewOk(s, t);
  }

  lemma WorkerSeen(s: State, w: nat)
    requires Inv(s) && w in s.workers
    ensures WorkerOk(CoreOf(s), s.workers[w])
  {}

  /** A worker that makes one call on its tenant's namespace and moves on. */
  lemma WorkerCalls(s: State, w: nat, n: Namespace, x: Worker)
    requires Inv(s) && w in s.workers && s.workers[w].tenant in s.past.committed
    requires var t := s.workers[w].tenant; ContentOk(s.past, t, n) && Grows(View(s, NamespaceName(t)), n)
    requires WorkerOk(CoreOf(PutNamespace(s, NamespaceName(s.workers[w].tenant), n)), x)
    requires SubjectOf(x) in {NoSubject, SubjectOf(s.workers[w])}
    ensures Inv(SetWorker(PutNamespace(s, NamespaceName(s.workers[w].tenant), n), w, x))
  {
    hide CoreOk, WorkerOk, Guarantee, ContentOk;
    var t := s.workers[w].tenant;
    CallEffect(s, t, n, SubjectOf(s.workers[w]));
    MoveWorker(s, PutNamespace(s, NamespaceName(t), n), w, x);
  }

  lemma WorkerCallsLast(s: State, w: nat, n: Namespace)
    requires Inv(s) && w in s.workers && s.workers[w].tenant in s.past.committed
    requires var t := s.workers[w].tenant; ContentOk(s.past, t, n) && Grows(View(s, NamespaceName(t)), n)
    ensures Inv(EndWorker(PutNamespace(s, NamespaceName(s.workers[w].tenant), n), w))
  {
    hide CoreOk, WorkerOk, Guarantee, ContentOk;
    var t := s.workers[w].tenant;
    CallEffect(s, t, n, SubjectOf(s.workers[w]));
    DropWorker(s, PutNamespace(s, NamespaceName(t), n), w);
  }

  // ----- Building -----

  ghost function Failing(x: Worker, a: Answer): Worker
    requires x.BuildHandler?
  {
    x.(buildPc := FailingBuild("Failed to start build: " + a.error))
  }

  lemma EnsuringKeeps(s: State, w: nat, a: Answer)
    requires Inv(s) && w in s.workers && s.workers[w].BuildHandler? && s.workers[w].buildPc.Ensuring?
    ensures Inv(BuildHandlerStep(s, w, s.workers[w], a))
  {
    hide Inv, ContentOk, Grows;
    var x := s.workers[w];
    var k, t := x.buildPc.k, x.tenant;
    WorkerSeen(s, w);
    if k >= HARDENING {
      OnlyWorker(s, w, x.(buildPc := CreatingImage));
    } else if a.fault.Rejected? {
      OnlyWorker(s, w, Failing(x, a));
    } else {
      var (n, reply) := CreateObject(View(s, x.ns), k, ManifestFor(k, a.dns));
      NamespaceSeen(s, t);
      CreateObjectOk(s.past, t, View(s, x.ns), k, a.dns);
      var c' := CoreOf(PutNamespace(s, x.ns, n));
      assert !reply.NotFound? ==> Prepared(c', t, k + 1);
      assert BuildOpen(c', t, x.build, Queued, Queued) && BuildOpen(c', t, x.build, Queued, Building);
      var raised := reply.NotFound? || a.fault.LostReply?;
      WorkerCalls(s, w, n, if raised then Failing(x, a) else x.(buildPc := Ensuring(k + 1)));
    }
  }

  lemma RowsSeen(s: State, b: nat, d: nat, t: nat)
    requires Inv(s)
    ensures BuildOk(CoreOf(s), b) && DeployOk(CoreOf(s), d) && TenantOk(CoreOf(s), t)
  {}

  /** A worker that overwrites its own build row and becomes x. */
  lemma WorkerWritesBuild(s: State, w: nat, b: nat, row: BuildRow, x: Worker)
    requires Inv(s) && w in s.workers && SubjectOf(s.workers[w]) == OnBuild(b)
    requires b in s.db.builds && !FinalBuild(s.db.builds[b].status)
    requires row.tenant == s.db.builds[b].tenant && BuildOk(CoreOf(PutBuild(s, b, row)), b)
    requires WorkerOk(CoreOf(PutBuild(s, b, row)), x) && SubjectOf(x) == OnBuild(b)
    ensures Inv(SetWorker(PutBuild(s, b, row), w, x))
  {
    hide CoreOk, WorkerOk, Guarantee, BuildOk;
    BuildEffect(s, b, row);
    MoveWorker(s, PutBuild(s, b, row), w, x);
  }

  lemma WorkerWritesBuildLast(s: State, w: nat, b: nat, row: BuildRow)
    requires Inv(s) && w in s.workers && SubjectOf(s.workers[w]) == OnBuild(b)
    requires b in s.db.builds && !FinalBuild(s.db.builds[b].status)
    requires row.tenant == s.db.builds[b].tenant && BuildOk(CoreOf(PutBuild(s, b, row)), b)
    ensures Inv(EndWorker(PutBuild(s, b, row), w))
  {
    hide CoreOk, WorkerOk, Guarantee, BuildOk;
    BuildEffect(s, b, row);
    DropWorker(s, PutBuild(s, b, row), w);
  }

  lemma CreatingImageKeeps(s: State, w: nat, a: Answer)
    requires Inv(s) && w in s.workers && s.workers[w].BuildHandler? && s.workers[w].buildPc.CreatingImage?
    ensures Inv(BuildHandlerStep(s, w, s.workers[w], a))
  {
    hide Inv, ContentOk, Grows;
    var x := s.workers[w];
    var t := x.tenant;
    WorkerSeen(s, w);
    if a.fault.Rejected? {
      OnlyWorker(s, w, Failing(x, a));
    } else {
      var (n, reply) := CreateImage(View(s, x.ns), ImageName(x.build), SpecOf(t, x.build, x.source));
      NamespaceSeen(s, t);
      CreateImageOk(s.past, t, View(s, x.ns), x.build, x.source);
      var c' := CoreOf(PutNamespace(s, x.ns, n));
      assert reply.Done? ==> ImagedFrom(c', t, x.build, x.source);
      assert BuildOpen(c', t, x.build, Queued, Queued) && BuildOpen(c', t, x.build, Queued, Building);
      var raised := !reply.Done? || a.fault.LostReply?;
      WorkerCalls(s, w, n, if raised then Failing(x, a) else x.(buildPc := CommittingBuilding));
    }
  }

  lemma StartingKeeps(s: State, w: nat, a: Answer)
    requires Inv(s) && w in s.workers && s.workers[w].BuildHandler?
    requires s.workers[w].buildPc.CommittingBuilding? || s.workers[w].buildPc.RefreshingBuilding?
    ensures Inv(BuildHandlerStep(s, w, s.workers[w], a))
  {
    hide Inv;
    var x := s.workers[w];
    var b := x.build;
    WorkerSeen(s, w);
    RowsSeen(s, b, 0, 0);
    if b !in s.db.builds || !Lands(a) || (x.buildPc.RefreshingBuilding? && !a.fault.NoFault?) {
      assert BuildOpen(CoreOf(s), x.tenant, b, Queued, Building);
      OnlyWorker(s, w, Failing(x, a));
    } else if x.buildPc.CommittingBuilding? {
      var row := s.db.builds[b].(status := Building, startedAt := Some(a.now));
      WorkerWritesBuild(s, w, b, row, if a.fault.NoFault? then x.(buildPc := RefreshingBuilding) else Failing(x, a));
    } else {
      OnlyWorker(s, w, BuildPoller(x.tenant, x.ns, b, 0, BuildPolling));
    }
  }

  lemma FailingKeeps(s: State, w: nat, a: Answer)
    requires Inv(s) && w in s.workers && s.workers[w].BuildHandler? && s.workers[w].buildPc.FailingBuild?
    ensures Inv(BuildHandlerStep(s, w, s.workers[w], a))
  {
    hide Inv;
    var x := s.workers[w];
    var b := x.build;
    WorkerSeen(s, w);
    RowsSeen(s, b, 0, 0);
    if !Lands(a) || b !in s.db.builds {
      WorkerEnds(s, w);
    } else {
      var row := s.db.builds[b].(status := BuildFailed, error := Some(x.buildPc.error), endedAt := Some(a.now));
      WorkerWritesBuildLast(s, w, b, row);
    }
  }

  /** A report that can be read off an Image was made by kpack on that very Image. */
  lemma VerdictWasReported(s: State, t: nat, b: nat)
    requires Inv(s) && b in s.past.buildOwner && s.past.buildOwner[b] == t
    requires BuildVerdict(View(s, NamespaceName(t)), ImageName(b)).Ready?
    ensures Reported(s.past, t, b, BuildVerdict(View(s, NamespaceName(t)), ImageName(b)).latestImage)
  {
    NamespaceSeen(s, t);
    var status := View(s, NamespaceName(t)).images[ImageName(b)].status;
    assert Report(NamespaceName(t), ImageName(b), status) in s.past.reports;
  }

  lemma BuildPollingKeeps(s: State, w: nat, a: Answer)
    requires Inv(s) && w in s.workers && s.workers[w].BuildPoller?
    requires !s.workers[w].buildPhase.BuildCommitting? && !s.workers[w].buildPhase.BuildCommittingTimeout?
    ensures Inv(BuildPollerStep(s, w, s.workers[w], a))
  {
    hide Inv;
    var x := s.workers[w];
    WorkerSeen(s, w);
    var s' := BuildPollerStep(s, w, x, a);
    if w !in s'.workers {
      WorkerEnds(s, w);
    } else {
      var v := BuildVerdict(View(s, x.ns), ImageName(x.build));
      if v.Ready? { VerdictWasReported(s, x.tenant, x.build); }
      OnlyWorker(s, w, s'.workers[w]);
    }
  }

  lemma ResolvedOk(s: State, w: nat, row: BuildRow, now: int)
    requires Inv(s) && w in s.workers && s.workers[w].BuildPoller? && s.workers[w].buildPhase.BuildCommitting?
    requires var x := s.workers[w];
             && x.build in s.db.builds && !x.buildPhase.verdict.Unknown?
             && row == Resolved(s.db.builds[x.build], x.buildPhase.verdict, now)
    ensures BuildOk(CoreOf(PutBuild(s, s.workers[w].build, row)), s.workers[w].build)
  {
    hide Inv;
    WorkerSeen(s, w);
    var x := s.workers[w];
    RowsSeen(s, x.build, 0, 0);
    if x.buildPhase.verdict.Ready? {
      var past' := PutBuild(s, x.build, row).past;
      ReportedStable(s.past, past', x.tenant, x.build, row.imageTag);
    }
  }

  lemma BuildResolvedKeeps(s: State, w: nat, a: Answer)
    requires Inv(s) && w in s.workers && s.workers[w].BuildPoller? && s.workers[w].buildPhase.BuildCommitting?
    ensures Inv(BuildResolveStep(s, w, s.workers[w], s.workers[w].buildPhase.verdict, a))
  {
    hide Inv;
    var x := s.workers[w];
    var b, v := x.build, x.buildPhase.verdict;
    WorkerSeen(s, w);
    RowsSeen(s, b, 0, 0);
    if !Lands(a) || b !in s.db.builds {
      WorkerEnds(s, w);
    } else {
      var row := Resolved(s.db.builds[b], v, a.now);
      ResolvedOk(s, w, row, a.now);
      if a.fault.NoFault? {
        WorkerWritesBuild(s, w, b, row, BuildDispatcher(x.tenant, b, row));
      } else {
        WorkerWritesBuildLast(s, w, b, row);
      }
    }
  }

  lemma BuildTimeoutKeeps(s: State, w: nat, a: Answer)
    requires Inv(s) && w in s.workers && s.workers[w].BuildPoller?
    ensures Inv(BuildTimeoutStep(s, w, s.workers[w], a))
  {
    hide Inv, TimeoutError;
    var b := s.workers[w].build;
    WorkerSeen(s, w);
    RowsSeen(s, b, 0, 0);
    if !Lands(a) || b !in s.db.builds {
      WorkerEnds(s, w);
    } else {
      WorkerWritesBuildLast(s, w, b, BuildTimedOut(s.db.builds[b], a.now));
    }
  }

  // ----- Deploying -----

  lemma WorkerWritesDeployment(s: State, w: nat, d: nat, row: DeployRow, x: Worker)
    requires Inv(s) && w in s.workers && SubjectOf(s.workers[w]) == OnDeployment(d)
    requires d in s.db.deployments && !FinalDeploy(s.db.deployments[d].status)
    requires row == s.db.deployments[d].(status := row.status) && !row.status.Stopped?
    requires WorkerOk(CoreOf(PutDeployment(s, d, row)), x) && SubjectOf(x) == OnDeployment(d)
    ensures Inv(SetWorker(PutDeployment(s, d, row), w, x))
  {
    hide CoreOk, WorkerOk, Guarantee;
    DeployEffect(s, d, row);
    MoveWorker(s, PutDeployment(s, d, row), w, x);
  }

  lemma WorkerWritesDeploymentLast(s: State, w: nat, d: nat, row: DeployRow)
    requires Inv(s) && w in s.workers && SubjectOf(s.workers[w]) == OnDeployment(d)
    requires d in s.db.deployments && !FinalDeploy(s.db.deployments[d].status)
    requires row == s.db.deployments[d].(status := row.status) && !row.status.Stopped?
    ensures Inv(EndWorker(PutDeployment(s, d, row), w))
  {
    hide CoreOk, WorkerOk, Guarantee;
    DeployEffect(s, d, row);
    DropWorker(s, PutDeployment(s, d, row), w);
  }

  lemma DeployCallKeeps(s: State, w: nat, a: Answer)
    requires Inv(s) && w in s.workers && s.workers[w].DeployHandler?
    requires s.workers[w].deployPc in {CreatingApp, PatchingApp, CreatingService}
    ensures Inv(DeployHandlerStep(s, w, s.workers[w], a))
  {
    hide Inv, ContentOk, Grows, HasRecord;
    var x := s.workers[w];
    var t := x.tenant;
    WorkerSeen(s, w);
    if a.fault.Rejected? {
      OnlyWorker(s, w, x.(deployPc := FailingDeploy));
    } else {
      NamespaceSeen(s, t);
      var before := View(s, x.ns);
      AppContentOk(s.past, t, before, x.image, x.replicas);
      var n := match x.deployPc case CreatingApp => CreateApp(before, x.image, x.replicas).0
                                case PatchingApp => PatchApp(before, x.image, x.replicas).0
                                case _ => CreateService(before).0;
      var x' := DeployHandlerStep(s, w, x, a).workers[w];
      var c' := CoreOf(PutNamespace(s, x.ns, n));
      assert Prepared(c', t, HARDENING);
      assert DeployOpen(c', t, x.deployment, Pending, Pending) && DeployOpen(c', t, x.deployment, Pending, Deploying);
      WorkerCalls(s, w, n, x');
    }
  }

  lemma DeployCommitKeeps(s: State, w: nat, a: Answer)
    requires Inv(s) && w in s.workers && s.workers[w].DeployHandler?
    requires s.workers[w].deployPc in {CommittingDeploying, RefreshingDeploying, FailingDeploy}
    ensures Inv(DeployHandlerStep(s, w, s.workers[w], a))
  {
    hide Inv;
    var x := s.workers[w];
    var d := x.deployment;
    WorkerSeen(s, w);
    RowsSeen(s, 0, d, 0);
    if d !in s.db.deployments || !Lands(a) || (x.deployPc.RefreshingDeploying? && !a.fault.NoFault?) {
      if x.deployPc.FailingDeploy? { WorkerEnds(s, w); } else { OnlyWorker(s, w, x.(deployPc := FailingDeploy)); }
    } else if x.deployPc.CommittingDeploying? {
      WorkerWritesDeployment(s, w, d, s.db.deployments[d].(status := Deploying),
                             x.(deployPc := if a.fault.NoFault? then RefreshingDeploying else FailingDeploy));
    } else if x.deployPc.RefreshingDeploying? {
      OnlyWorker(s, w, DeployPoller(x.tenant, x.ns, d, 0, DeployPolling));
    } else {
      WorkerWritesDeploymentLast(s, w, d, s.db.deployments[d].(status := DeployFailed));
    }
  }

  lemma DeployPollingKeeps(s: State, w: nat, a: Answer)
    requires Inv(s) && w in s.workers && s.workers[w].DeployPoller?
    requires !s.workers[w].deployPhase.DeployCommitting? && !s.workers[w].deployPhase.DeployCommittingTimeout?
    ensures Inv(DeployPollerStep(s, w, s.workers[w], a))
  {
    hide Inv, RolloutVerdict, View;
    WorkerSeen(s, w);
    var s' := DeployPollerStep(s, w, s.workers[w], a);
    if w in s'.workers { OnlyWorker(s, w, s'.workers[w]); } else { WorkerEnds(s, w); }
  }

  lemma DeployResolvedKeeps(s: State, w: nat, running: bool, a: Answer)
    requires Inv(s) && w in s.workers && s.workers[w].DeployPoller?
    ensures Inv(DeployResolveStep(s, w, s.workers[w], running, a))
  {
    hide Inv;
    var x := s.workers[w];
    var d := x.deployment;
    WorkerSeen(s, w);
    RowsSeen(s, 0, d, 0);
    if !Lands(a) || d !in s.db.deployments {
      WorkerEnds(s, w);
    } else {
      var row := Rolled(s.db.deployments[d], running);
      if a.fault.NoFault? {
        WorkerWritesDeployment(s, w, d, row, DeployDispatcher(x.tenant, d, row));
      } else {
        WorkerWritesDeploymentLast(s, w, d, row);
      }
    }
  }

  lemma DeployTimeoutKeeps(s: State, w: nat, a: Answer)
    requires Inv(s) && w in s.workers && s.workers[w].DeployPoller?
    ensures Inv(DeployTimeoutStep(s, w, s.workers[w], a))
  {
    hide Inv;
    var d := s.workers[w].deployment;
    WorkerSeen(s, w);
    RowsSeen(s, 0, d, 0);
    if !Lands(a) || d !in s.db.deployments {
      WorkerEnds(s, w);
    } else {
      WorkerWritesDeploymentLast(s, w, d, s.db.deployments[d].(status := DeployFailed));
    }
  }

  /** The pollers' turns, phase by phase. */
  lemma PollersKeep(s: State, w: nat, a: Answer)
    requires Inv(s) && w in s.workers && (s.workers[w].BuildPoller? || s.workers[w].DeployPoller?)
    ensures Inv(WorkStep(s, w, a))
  {
    hide Inv, BuildResolveStep, BuildTimeoutStep, DeployResolveStep, DeployTimeoutStep, View, BuildVerdict,
      RolloutVerdict;
    if s.workers[w].BuildPoller? {
      match s.workers[w].buildPhase
      case BuildCommitting(_) => BuildResolvedKeeps(s, w, a);
      case BuildCommittingTimeout => BuildTimeoutKeeps(s, w, a);
      case _ => BuildPollingKeeps(s, w, a);
    } else {
      match s.workers[w].deployPhase
      case DeployCommitting(running) => DeployResolvedKeeps(s, w, running, a);
      case DeployCommittingTimeout => DeployTimeoutKeeps(s, w, a);
      case _ => DeployPollingKeeps(s, w, a);
    }
  }

  // ----- Webhooks -----

  lemma DispatcherKeeps(s: State, w: nat, a: Answer)
    requires Inv(s) && w in s.workers && s.workers[w].Dispatcher?
    ensures Inv(DispatcherStep(s, w, s.workers[w], a))
  {
    hide CoreOk, WorkersOk, Guarantee, Matches;
    var x := s.workers[w];
    var s' := DispatcherStep(s, w, x, a);
    WorkerSeen(s, w);
    if x.recipients.None? {
      if !a.fault.NoFault? {
        WorkerEnds(s, w);
      } else if s' != s {
        SelectedOk(s, x, a);
        OnlyWorker(s, w, x.(recipients := Some(a.order), secrets := SecretsOf(s.db.registrations, a.order)));
      }
    } else {
      var to := x.recipients.value;
      if !Lands(a) || x.payload.tenant !in s.db.tenants || exists r :: r in to && r !in s.db.registrations {
        WorkerEnds(s, w);
      } else {
        DeliveriesEffect(s, x.payload, to, Signing(x.secrets, a.clock));
        DropWorker(s, InsertDeliveries(s, x.event, x.payload, to, Signing(x.secrets, a.clock)), w);
      }
    }
  }

  lemma SelectedOk(s: State, x: Worker, a: Answer)
    requires Inv(s) && x.Dispatcher? && DispatcherOk(CoreOf(s), x) && x.recipients.None?
    requires Distinct(a.order) && (set r | r in a.order) == ActiveRegistrations(s.db, x.payload.tenant)
    ensures DispatcherOk(CoreOf(s), x.(recipients := Some(a.order), secrets := SecretsOf(s.db.registrations, a.order)))
  {
    forall r | r in a.order
      ensures r in s.db.registrations && s.db.registrations[r].tenant == x.tenant && r < s.db.nextRegistration
    {
      assert r in (set q | q in a.order);
      assert r in ActiveRegistrations(s.db, x.payload.tenant);
    }
  }

  // ----- Requests -----

  lemma KubeconfigKeeps(s: State, w: nat, a: Answer)
    requires Inv(s) && w in s.workers && s.workers[w].KubeconfigHandler?
    ensures Inv(KubeconfigStep(s, w, s.workers[w], a))
  {
    hide Inv, ContentOk, Grows;
    var x := s.workers[w];
    var t := x.tenant;
    WorkerSeen(s, w);
    if x.k >= ALL_OBJECTS || a.fault.Rejected? {
      WorkerEnds(s, w);
    } else {
      var (n, reply) := CreateObject(View(s, x.ns), x.k, ManifestFor(x.k, a.dns));
      NamespaceSeen(s, t);
      CreateObjectOk(s.past, t, View(s, x.ns), x.k, a.dns);
      if reply.NotFound? || a.fault.LostReply? {
        WorkerCallsLast(s, w, n);
      } else {
        assert Prepared(CoreOf(PutNamespace(s, x.ns, n)), t, x.k + 1);
        WorkerCalls(s, w, n, x.(k := x.k + 1));
      }
    }
  }

  /** A key never given out before is nobody's subject. */
  lemma FreshSubjects(s: State)
    requires Inv(s)
    ensures forall v | v in s.workers :: SubjectOf(s.workers[v]) != OnBuild(s.db.nextBuild)
    ensures forall v | v in s.workers :: SubjectOf(s.workers[v]) != OnDeployment(s.db.nextDeployment)
    ensures forall v | v in s.workers :: SubjectOf(s.workers[v]) != OnTenant(s.db.nextTenant)
    ensures Undelivered(s.db, OnBuild(s.db.nextBuild)) && Undelivered(s.db, OnDeployment(s.db.nextDeployment))
  {
    forall v | v in s.workers
      ensures SubjectOf(s.workers[v]) !in {OnBuild(s.db.nextBuild), OnDeployment(s.db.nextDeployment),
                                           OnTenant(s.db.nextTenant)}
    {
      assert WorkerOk(CoreOf(s), s.workers[v]);
    }
    forall i | i in s.db.deliveries
      ensures SubjectOfPayload(s.db.deliveries[i].payload)
           !in {OnBuild(s.db.nextBuild), OnDeployment(s.db.nextDeployment)}
    {
      assert DeliveryOk(s.db, i);
      match s.db.deliveries[i].payload
      case BuildPayload(_, b, _, _, _) => RowsSeen(s, b, 0, 0);
      case DeployPayload(_, d, _) => RowsSeen(s, 0, d, 0);
    }
  }

  lemma NewBuildKeeps(s: State, w: nat, source: Source)
    requires Inv(s) && w in s.workers && s.workers[w].Admitted? && s.workers[w].tenant in s.db.tenants
    ensures var t := s.workers[w].tenant;
            Inv(SetWorker(InsertBuild(s, BuildRow(t, source, Queued, None, None, None, None)), w,
                          BuildHandler(t, s.db.tenants[t].namespace, s.db.nextBuild, source, Ensuring(0))))
  {
    hide CoreOk, WorkersOk, Guarantee;
    var t := s.workers[w].tenant;
    var s' := InsertBuild(s, BuildRow(t, source, Queued, None, None, None, None));
    RowsSeen(s, 0, 0, t);
    FreshSubjects(s);
    InsertBuildEffect(s, t, source);
    assert Undelivered(s'.db, OnBuild(s.db.nextBuild));
    MoveWorker(s, s', w, BuildHandler(t, s.db.tenants[t].namespace, s.db.nextBuild, source, Ensuring(0)));
  }

  lemma NewBuildLost(s: State, w: nat, source: Source)
    requires Inv(s) && w in s.workers && s.workers[w].Admitted? && s.workers[w].tenant in s.db.tenants
    ensures Inv(EndWorker(InsertBuild(s, BuildRow(s.workers[w].tenant, source, Queued, None, None, None, None)), w))
  {
    hide CoreOk, WorkersOk, Guarantee;
    var t := s.workers[w].tenant;
    InsertBuildEffect(s, t, source);
    DropWorker(s, InsertBuild(s, BuildRow(t, source, Queued, None, None, None, None)), w);
  }

  lemma DeployInsertingKeeps(s: State, w: nat, a: Answer)
    requires Inv(s) && w in s.workers && s.workers[w].DeployInserting?
    ensures Inv(DeployInsertingStep(s, w, s.workers[w], a))
  {
    hide CoreOk, WorkersOk, RowsKept, ClusterGrows;
    var x := s.workers[w];
    var t := x.tenant;
    WorkerSeen(s, w);
    if !Lands(a) || t !in s.db.tenants || x.build !in s.db.builds {
      WorkerEnds(s, w);
    } else if !a.fault.NoFault? {
      RowsSeen(s, x.build, 0, t);
      InsertDeploymentEffect(s, DeployRow(t, x.build, Pending, x.replicas));
      DropWorker(s, InsertDeployment(s, DeployRow(t, x.build, Pending, x.replicas)), w);
    } else {
      var s' := InsertDeployment(s, DeployRow(t, x.build, Pending, x.replicas));
      RowsSeen(s, x.build, 0, t);
      FreshSubjects(s);
      InsertDeploymentEffect(s, DeployRow(t, x.build, Pending, x.replicas));
      assert Undelivered(s'.db, OnDeployment(s.db.nextDeployment));
      RecordStable(s.past, s'.past, t, x.image);
      MoveWorker(s, s', w,
                 DeployHandler(t, s.db.tenants[t].namespace, s.db.nextDeployment, x.image, x.replicas, CreatingApp));
    }
  }

  lemma NewDeploymentKeeps(s: State, w: nat, b: nat, replicas: int)
    requires Inv(s) && w in s.workers && s.workers[w].Admitted? && 1 <= replicas <= MAX_REPLICAS
    requires b in s.db.builds && s.db.builds[b].tenant == s.workers[w].tenant && s.db.builds[b].status.Succeeded?
    ensures Inv(SetWorker(s, w, DeployInserting(s.workers[w].tenant, b, s.db.builds[b].imageTag, replicas)))
  {
    hide Inv;
    WorkerSeen(s, w);
    RowsSeen(s, b, 0, 0);
    OnlyWorker(s, w, DeployInserting(s.workers[w].tenant, b, s.db.builds[b].imageTag, replicas));
  }

  lemma KeysSeen(s: State)
    requires Inv(s)
    ensures KeysOk(s.db)
  {}

  /** The database after a change to keys, registrations, or a tenant's switch. */
  lemma BookkeepingKeeps(s: State, s': State)
    requires Inv(s) && KeysOk(s'.db) && s' == s.(db := s'.db)
    requires s'.db == s.db.(keys := s'.db.keys, nextKey := s'.db.nextKey,
                            registrations := s'.db.registrations, nextRegistration := s'.db.nextRegistration,
                            tenants := s'.db.tenants, nextTenant := s'.db.nextTenant)
    requires forall r | r in s.db.registrations ::
               r in s'.db.registrations && s'.db.registrations[r] == s.db.registrations[r]
    requires forall r | r in s'.db.registrations :: r in s.db.registrations || r >= s.db.nextRegistration
    requires s'.db.nextRegistration >= s.db.nextRegistration && s'.db.nextTenant >= s.db.nextTenant
    requires s'.db.tenants.Keys == s.db.tenants.Keys
    requires forall t | t in s.db.tenants :: s'.db.tenants[t].namespace == s.db.tenants[t].namespace
    ensures Inv(s')
  {
    hide CoreOk, WorkersOk, Guarantee, KeysOk;
    KeysEffect(CoreOf(s), CoreOf(s'));
    KeepWorkers(s, s');
  }

  lemma AdmittedKeeps(s: State, w: nat, a: Answer)
    requires Inv(s) && w in s.workers && s.workers[w].Admitted?
    ensures Inv(AdmittedStep(s, w, s.workers[w], a))
  {
    hide Inv, Bookkept;
    var x := s.workers[w];
    var t := x.tenant;
    WorkerSeen(s, w);
    if !Lands(a) || t !in s.db.tenants {
      WorkerEnds(s, w);
    } else {
      match x.request
      case NewBuild(source) =>
        if a.fault.NoFault? { NewBuildKeeps(s, w, source); } else { NewBuildLost(s, w, source); }
      case NewDeployment(b, replicas) =>
        if a.fault.NoFault? && MayDeploy(s.db, t, b, replicas) {
          NewDeploymentKeeps(s, w, b, replicas);
        } else {
          WorkerEnds(s, w);
        }
      case Kubeconfig =>
        RowsSeen(s, 0, 0, t);
        if a.fault.NoFault? {
          OnlyWorker(s, w, KubeconfigHandler(t, s.db.tenants[t].namespace, 0));
        } else {
          WorkerEnds(s, w);
        }
      case _ =>
        BookkeptKeeps(s, t, x.request);
        WorkerEnds(Bookkept(s, t, x.request), w);
    }
  }

  lemma BookkeptKeeps(s: State, t: nat, request: Request)
    requires Inv(s) && t in s.db.tenants
    ensures Inv(Bookkept(s, t, request))
  {
    hide Inv, HashTaken, NameTaken;
    match request
    case NewKey(hash, name) =>
      if !HashTaken(s.db, hash) { NewKeyKeeps(s, KeyRow(t, hash, name, false)); }
    case RevokeKey(k) =>
      if k in s.db.keys { RevokeKeeps(s, k); }
    case Register(secret) => RegisterKeeps(s, Registration(t, secret, true));
    case _ =>
  }

  lemma NewKeyKeeps(s: State, row: KeyRow)
    requires Inv(s) && row.tenant in s.db.tenants && !HashTaken(s.db, row.hash)
    ensures Inv(InsertKey(s, row))
  {
    hide Inv;
    KeysSeen(s);
    BookkeepingKeeps(s, InsertKey(s, row));
  }

  lemma RevokeKeeps(s: State, k: nat)
    requires Inv(s) && k in s.db.keys
    ensures Inv(s.(db := s.db.(keys := s.db.keys[k := s.db.keys[k].(revoked := true)])))
  {
    hide Inv;
    KeysSeen(s);
    BookkeepingKeeps(s, s.(db := s.db.(keys := s.db.keys[k := s.db.keys[k].(revoked := true)])));
  }

  lemma RegisterKeeps(s: State, row: Registration)
    requires Inv(s) && row.tenant in s.db.tenants
    ensures Inv(InsertRegistration(s, row))
  {
    hide Inv;
    KeysSeen(s);
    BookkeepingKeeps(s, InsertRegistration(s, row));
  }

  // ----- Tenants -----

  /** A new worker whose subject nobody else has. */
  lemma SpawnKeeps(s: State, x: Worker)
    requires Inv(s) && WorkerOk(CoreOf(s), x)
    requires SubjectOf(x) == NoSubject || forall v | v in s.workers :: SubjectOf(s.workers[v]) != SubjectOf(x)
    ensures Inv(Spawn(s, x))
  {
    hide CoreOk, WorkerOk;
    assert CoreOf(Spawn(s, x)) == CoreOf(s);
  }

  lemma BeginTenantKeeps(s: State)
    requires Inv(s)
    ensures Inv(BeginTenantStep(s))
  {
    hide Inv, KeysOk;
    var s1 := s.(db := s.db.(nextTenant := s.db.nextTenant + 1));
    assert KeysOk(s1.db) by { TenantKeyTaken(s); }
    BookkeepingKeeps(s, s1);
    FreshSubjects(s);
    UncommittedKey(s);
    SpawnKeeps(s1, TenantTransaction(s.db.nextTenant));
  }

  lemma TenantKeyTaken(s: State)
    requires Inv(s)
    ensures KeysOk(s.db.(nextTenant := s.db.nextTenant + 1))
  {
    hide Inv;
    KeysSeen(s);
  }

  lemma UncommittedKey(s: State)
    requires Inv(s)
    ensures s.db.nextTenant !in s.past.committed
  {}

  lemma AdmitKeeps(s: State, t: nat, hash: string, request: Request)
    requires Inv(s) && Authorised(s.db, t, hash)
    ensures Inv(Spawn(s, Admitted(t, request)))
  {
    hide Inv;
    RowsSeen(s, 0, 0, t);
    SpawnKeeps(s, Admitted(t, request));
  }

  lemma CommitTenantKeeps(s: State, w: nat, name: string, hash: string)
    requires Inv(s) && w in s.workers && s.workers[w].TenantTransaction?
    ensures Inv(CommitTenantStep(s, w, s.workers[w].tenant, name, hash))
  {
    hide CoreOk, WorkersOk, Guarantee;
    WorkerSeen(s, w);
    var t := s.workers[w].tenant;
    if HashTaken(s.db, hash) {
      WorkerEnds(s, w);
    } else {
      CommitTenantEffect(s, w, t, name, hash);
      var s' := CommitTenantStep(s, w, t, name, hash);
      DropWorker(s, s'.(workers := s.workers), w);
    }
  }

  lemma DeleteTenantKeeps(s: State, t: nat)
    requires Inv(s)
    ensures Inv(DeleteTenantStep(s, t))
  {
    hide CoreOk, WorkersOk, Guarantee;
    DeleteEffect(s, t);
    KeepWorkers(s, DeleteTenantStep(s, t));
  }

  lemma UpdateTenantKeeps(s: State, t: nat, name: Option<string>, active: Option<bool>)
    requires Inv(s) && t in s.db.tenants
    ensures Inv(s.(db := s.db.(tenants := s.db.tenants[t := Updated(s.db.tenants[t], name, active)])))
  {
    hide Inv;
    KeysSeen(s);
    BookkeepingKeeps(s, s.(db := s.db.(tenants := s.db.tenants[t := Updated(s.db.tenants[t], name, active)])));
  }

  lemma KpackReportKeeps(s: State, ns: string, image: string, status: ImageStatus)
    requires Inv(s) && ns in s.cluster && image in s.cluster[ns].images
    ensures Inv(KpackReportStep(s, ns, image, status))
  {
    hide CoreOk, WorkersOk, Guarantee;
    ReportEffect(s, ns, image, status);
    KeepWorkers(s, KpackReportStep(s, ns, image, status));
  }

  // ----- All steps -----

  lemma WorkKeeps(s: State, w: nat, a: Answer)
    requires Inv(s) && w in s.workers
    ensures Inv(WorkStep(s, w, a))
  {
    hide Inv, BuildHandlerStep, BuildPollerStep, DeployHandlerStep, DeployPollerStep, DispatcherStep, AdmittedStep,
      DeployInsertingStep, KubeconfigStep;
    match s.workers[w]
    case TenantTransaction(_) =>
    case Admitted(_, _) => AdmittedKeeps(s, w, a);
    case BuildHandler(_, _, _, _, pc) =>
      match pc {
        case Ensuring(_) => EnsuringKeeps(s, w, a);
        case CreatingImage => CreatingImageKeeps(s, w, a);
        case FailingBuild(_) => FailingKeeps(s, w, a);
        case _ => StartingKeeps(s, w, a);
      }
    case BuildPoller(_, _, _, _, _) => PollersKeep(s, w, a);
    case DeployInserting(_, _, _, _) => DeployInsertingKeeps(s, w, a);
    case DeployHandler(_, _, _, _, _, pc) =>
      match pc {
        case CreatingApp => DeployCallKeeps(s, w, a);
        case PatchingApp => DeployCallKeeps(s, w, a);
        case CreatingService => DeployCallKeeps(s, w, a);
        case _ => DeployCommitKeeps(s, w, a);
      }
    case DeployPoller(_, _, _, _, _) => PollersKeep(s, w, a);
    case Dispatcher(_, _, _, _, _) => DispatcherKeeps(s, w, a);
    case KubeconfigHandler(_, _, _) => KubeconfigKeeps(s, w, a);
  }

  lemma ApplyKeeps(s: State, step: Step)
    requires Inv(s)
    ensures Inv(Apply(s, step))
  {
    hide Inv, BeginTenantStep, CommitTenantStep, DeleteTenantStep, WorkStep, KpackReportStep;
    match step
    case BeginTenant => BeginTenantKeeps(s);
    case CommitTenant(w, name, hash) =>
      if w in s.workers && s.workers[w].TenantTransaction? { CommitTenantKeeps(s, w, name, hash); }
    case UpdateTenant(t, name, active) =>
      if t in s.db.tenants { UpdateTenantKeeps(s, t, name, active); }
    case DeleteTenant(t) => DeleteTenantKeeps(s, t);
    case Admit(t, hash, request) =>
      if Authorised(s.db, t, hash) { AdmitKeeps(s, t, hash, request); }
    case Work(w, a) =>
      if w in s.workers { WorkKeeps(s, w, a); }
    case Crash(w) => WorkerEnds(s, w);
    case KpackReport(ns, image, status) =>
      if ns in s.cluster && image in s.cluster[ns].images { KpackReportKeeps(s, ns, image, status); }
  }

  /** The invariant holds after every run. */
  lemma {:induction false} RunOk(steps: seq<Step>)
    ensures Inv(Run(steps))
  {
    if steps != [] {
      RunOk(steps[..|steps| - 1]);
      ApplyKeeps(Run(steps[..|steps| - 1]), steps[|steps| - 1]);
    }
  }
}
