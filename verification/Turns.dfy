/**
  Helpers for Services: each reads off what one turn of a worker does to the database,
  the cluster and the worker itself, so that a service can extend its trace by a step
  without unfolding the transition function. The lemmas at the end of each section add
  what the invariant says about the rows and objects a service meets.
 */
module Turns {
  import opened Options
  import opened Naming
  import opened Kubernetes
  import opened ControlPlane
  import opened Invariant
  import opened StepProof

  lemma Extend(trace: seq<Step>, step: Step)
    ensures Run(trace + [step]) == Apply(Run(trace), step)
  {
    var all := trace + [step];
    assert all[..|all| - 1] == trace && all[|all| - 1] == step;
  }

  // ----- Building -----

  /** The k-th create-or-409 call. */
  lemma EnsureTurn(s: State, w: nat, x: Worker, k: nat, a: Answer)
    requires w in s.workers && x.BuildHandler? && k < HARDENING && s.workers[w] == x.(buildPc := Ensuring(k))
    ensures var s' := Apply(s, Work(w, a));
            var (n, reply) := CreateObject(Look(s.cluster, x.ns), k, ManifestFor(k, a.dns));
            var raised := a.fault.Rejected? || reply.NotFound? || a.fault.LostReply?;
            && s'.db == s.db
            && s'.cluster == (if a.fault.Rejected? || n == Look(s.cluster, x.ns) then s.cluster
                              else s.cluster[x.ns := n])
            && w in s'.workers
            && s'.workers[w] == x.(buildPc := if raised then FailingBuild("Failed to start build: " + a.error)
                                   else Ensuring(k + 1))
  {
    hide CreateObject, ManifestFor;
  }

  lemma EnsureDone(s: State, w: nat, x: Worker, a: Answer)
    requires w in s.workers && x.BuildHandler? && s.workers[w] == x.(buildPc := Ensuring(HARDENING))
    ensures Apply(s, Work(w, a)) == SetWorker(s, w, x.(buildPc := CreatingImage))
  {}

  lemma InsertBuildTurn(s: State, w: nat, t: nat, source: Source, a: Answer)
    requires w in s.workers && s.workers[w] == Admitted(t, NewBuild(source))
    ensures var s' := Apply(s, Work(w, a));
            && s'.cluster == s.cluster
            && if !Lands(a) || t !in s.db.tenants then s'.db == s.db
               else
                 var b, row := s.db.nextBuild, BuildRow(t, source, Queued, None, None, None, None);
                 && s'.db == s.db.(builds := s.db.builds[b := row], nextBuild := b + 1)
                 && (a.fault.NoFault? ==>
                       && w in s'.workers
                       && s'.workers[w] == BuildHandler(t, s.db.tenants[t].namespace, b, source, Ensuring(0)))
  {}

  lemma CreateImageTurn(s: State, w: nat, x: Worker, a: Answer)
    requires w in s.workers && s.workers[w] == x && x.BuildHandler? && x.buildPc == CreatingImage
    ensures var s' := Apply(s, Work(w, a));
            var (n, reply) := CreateImage(Look(s.cluster, x.ns), ImageName(x.build),
                                          SpecOf(x.tenant, x.build, x.source));
            var raised := a.fault.Rejected? || !reply.Done? || a.fault.LostReply?;
            && s'.db == s.db
            && s'.cluster == (if a.fault.Rejected? || n == Look(s.cluster, x.ns) then s.cluster
                              else s.cluster[x.ns := n])
            && w in s'.workers
            && s'.workers[w] == x.(buildPc := if raised then FailingBuild("Failed to start build: " + a.error)
                                   else CommittingBuilding)
  {
    hide CreateImage, SpecOf;
  }

  lemma CommitBuildTurn(s: State, w: nat, x: Worker, a: Answer)
    requires w in s.workers && s.workers[w] == x && x.BuildHandler? && x.buildPc == CommittingBuilding
    requires x.build in s.db.builds
    ensures var s' := Apply(s, Work(w, a));
            && s'.cluster == s.cluster && w in s'.workers
            && s'.workers[w] == x.(buildPc := if a.fault.NoFault? then RefreshingBuilding
                                              else FailingBuild("Failed to start build: " + a.error))
            && s'.db == if !Lands(a) then s.db
                        else s.db.(builds := s.db.builds[x.build := s.db.builds[x.build].(
                               status := Building, startedAt := Some(a.now))])
  {}

  lemma RefreshBuildTurn(s: State, w: nat, x: Worker, a: Answer)
    requires w in s.workers && s.workers[w] == x && x.BuildHandler? && x.buildPc == RefreshingBuilding
    requires x.build in s.db.builds && s.db.builds[x.build].status == Building
    ensures var s' := Apply(s, Work(w, a));
            && s'.cluster == s.cluster && s'.db == s.db && w in s'.workers
            && s'.workers[w] == if a.fault.NoFault? then BuildPoller(x.tenant, x.ns, x.build, 0, BuildPolling)
                                else x.(buildPc := FailingBuild("Failed to start build: " + a.error))
  {}

  lemma FailBuildTurn(s: State, w: nat, x: Worker, a: Answer)
    requires w in s.workers && s.workers[w] == x && x.BuildHandler? && x.buildPc.FailingBuild? && x.build in s.db.builds
    ensures var s' := Apply(s, Work(w, a));
            && s'.cluster == s.cluster && w !in s'.workers
            && s'.db == if !Lands(a) then s.db
                        else s.db.(builds := s.db.builds[x.build := s.db.builds[x.build].(
                               status := BuildFailed, error := Some(x.buildPc.error), endedAt := Some(a.now))])
  {}

  lemma CrashTurn(s: State, w: nat)
    ensures var s' := Apply(s, Crash(w)); s'.db == s.db && s'.cluster == s.cluster
  {}

  /** A key just taken from the sequence names no Image yet. */
  lemma NextImageIsNew(steps: seq<Step>, t: nat, b: nat)
    requires b >= Run(steps).db.nextBuild
    ensures ImageName(b) !in Look(Run(steps).cluster, NamespaceName(t)).images
  {
    var s := Run(steps);
    RunOk(steps);
    var ns := NamespaceName(t);
    if ns in s.cluster && ImageName(b) in s.cluster[ns].images {
      var image := s.cluster[ns].images[ImageName(b)];
      assert ImageOk(s.past, t, ImageName(b), image);
      var c :| BelongsTo(s.past, t, c, ImageName(b), image.spec);
      ImageNameInjective(b, c);
      assert false;
    }
  }

  lemma TenantIsNamed(steps: seq<Step>, t: nat)
    ensures var s := Run(steps); t in s.db.tenants ==> s.db.tenants[t].namespace == NamespaceName(t)
    ensures var s := Run(steps);
            forall b | b >= s.db.nextBuild :: ImageName(b) !in Look(s.cluster, NamespaceName(t)).images
  {
    RunOk(steps);
    RowsSeen(Run(steps), 0, 0, t);
    forall b | b >= Run(steps).db.nextBuild
      ensures ImageName(b) !in Look(Run(steps).cluster, NamespaceName(t)).images
    {
      NextImageIsNew(steps, t, b);
    }
  }

  lemma AdmitTurn(s: State, t: nat, hash: string, request: Request)
    requires Authorised(s.db, t, hash)
    ensures t in s.db.tenants
    ensures var s' := Apply(s, Admit(t, hash, request)); var w := s.nextWorker;
            s'.db == s.db && s'.cluster == s.cluster && w in s'.workers && s'.workers[w] == Admitted(t, request)
  {}

  // ----- Deploying -----

  lemma LookupTurn(s: State, w: nat, t: nat, b: nat, replicas: int, a: Answer)
    requires w in s.workers && s.workers[w] == Admitted(t, NewDeployment(b, replicas))
    ensures var s' := Apply(s, Work(w, a));
            && s'.db == s.db && s'.cluster == s.cluster
            && (a.fault.NoFault? && t in s.db.tenants && MayDeploy(s.db, t, b, replicas) ==>
                  w in s'.workers && s'.workers[w] == DeployInserting(t, b, s.db.builds[b].imageTag, replicas))
  {}

  lemma InsertDeploymentTurn(s: State, w: nat, t: nat, b: nat, image: Option<string>, replicas: int, a: Answer)
    requires w in s.workers && s.workers[w] == DeployInserting(t, b, image, replicas) && t in s.db.tenants
    requires b in s.db.builds
    ensures var s' := Apply(s, Work(w, a));
            && s'.cluster == s.cluster
            && if !Lands(a) then s'.db == s.db
               else
                 var d, row := s.db.nextDeployment, DeployRow(t, b, Pending, replicas);
                 && s'.db == s.db.(deployments := s.db.deployments[d := row], nextDeployment := d + 1)
                 && (a.fault.NoFault? ==>
                       && w in s'.workers
                       && s'.workers[w] == DeployHandler(t, s.db.tenants[t].namespace, d, image, replicas, CreatingApp))
  {}

  /** One cluster call of a deploy handler, with the namespace it leaves and the point it goes on from. */
  ghost predicate DeployCall(s: State, s': State, w: nat, x: Worker, a: Answer, n: Namespace, raised: bool,
                             next: DeployPc)
    requires x.DeployHandler?
  {
    && s'.db == s.db
    && s'.cluster == (if a.fault.Rejected? || n == Look(s.cluster, x.ns) then s.cluster else s.cluster[x.ns := n])
    && w in s'.workers && s'.workers[w] == x.(deployPc := if raised then FailingDeploy else next)
  }

  lemma CreateAppTurn(s: State, w: nat, x: Worker, a: Answer)
    requires w in s.workers && s.workers[w] == x && x.DeployHandler? && x.deployPc == CreatingApp
    ensures var (n, reply) := CreateApp(Look(s.cluster, x.ns), x.image, x.replicas);
            DeployCall(s, Apply(s, Work(w, a)), w, x, a, n, a.fault.Rejected? || reply.NotFound? || a.fault.LostReply?,
                       if reply.Conflict? then PatchingApp else CreatingService)
  {
    hide CreateApp;
  }

  lemma PatchAppTurn(s: State, w: nat, x: Worker, a: Answer)
    requires w in s.workers && s.workers[w] == x && x.DeployHandler? && x.deployPc == PatchingApp
    ensures var (n, reply) := PatchApp(Look(s.cluster, x.ns), x.image, x.replicas);
            var raised := a.fault.Rejected? || reply.NotFound? || a.fault.LostReply?;
            DeployCall(s, Apply(s, Work(w, a)), w, x, a, n, raised, CreatingService)
  {
    hide PatchApp;
  }

  lemma CreateServiceTurn(s: State, w: nat, x: Worker, a: Answer)
    requires w in s.workers && s.workers[w] == x && x.DeployHandler? && x.deployPc == CreatingService
    ensures var (n, reply) := CreateService(Look(s.cluster, x.ns));
            var raised := a.fault.Rejected? || reply.NotFound? || a.fault.LostReply?;
            DeployCall(s, Apply(s, Work(w, a)), w, x, a, n, raised, CommittingDeploying)
  {
    hide CreateService;
  }

  lemma CommitDeploymentTurn(s: State, w: nat, x: Worker, a: Answer)
    requires w in s.workers && s.workers[w] == x && x.DeployHandler? && x.deployPc == CommittingDeploying
    requires x.deployment in s.db.deployments
    ensures var s' := Apply(s, Work(w, a));
            && s'.cluster == s.cluster && w in s'.workers
            && s'.workers[w] == x.(deployPc := if a.fault.NoFault? then RefreshingDeploying else FailingDeploy)
            && s'.db == if !Lands(a) then s.db
                        else
                          var d := x.deployment;
                          s.db.(deployments := s.db.deployments[d := s.db.deployments[d].(status := Deploying)])
  {}

  lemma RefreshDeploymentTurn(s: State, w: nat, x: Worker, a: Answer)
    requires w in s.workers && s.workers[w] == x && x.DeployHandler? && x.deployPc == RefreshingDeploying
    requires x.deployment in s.db.deployments && s.db.deployments[x.deployment].status == Deploying
    ensures var s' := Apply(s, Work(w, a));
            && s'.cluster == s.cluster && s'.db == s.db && w in s'.workers
            && s'.workers[w] == if a.fault.NoFault? then DeployPoller(x.tenant, x.ns, x.deployment, 0, DeployPolling)
                                else x.(deployPc := FailingDeploy)
  {}

  lemma FailDeploymentTurn(s: State, w: nat, x: Worker, a: Answer)
    requires w in s.workers && s.workers[w] == x && x.DeployHandler? && x.deployPc == FailingDeploy
    requires x.deployment in s.db.deployments
    ensures var s' := Apply(s, Work(w, a));
            && s'.cluster == s.cluster
            && s'.db == if !Lands(a) then s.db
                        else
                          var d := x.deployment;
                          s.db.(deployments := s.db.deployments[d := s.db.deployments[d].(status := DeployFailed)])
  {}

  /** A succeeded build stands in the hardened namespace of a tenant that exists. */
  lemma DeployableBuild(steps: seq<Step>, t: nat, b: nat)
    requires var db := Run(steps).db; b in db.builds && db.builds[b].tenant == t && db.builds[b].status.Succeeded?
    ensures var s := Run(steps);
            && t in s.db.tenants && s.db.tenants[t].namespace == NamespaceName(t)
            && NAMESPACE in Look(s.cluster, NamespaceName(t)).objects
  {
    RunOk(steps);
    RowsSeen(Run(steps), b, 0, t);
    assert NAMESPACE in Run(steps).cluster[NamespaceName(t)].objects;
  }

  lemma BuildIsDeployable(steps: seq<Step>, t: nat, b: nat, replicas: int)
    requires MayDeploy(Run(steps).db, t, b, replicas)
    ensures var s := Run(steps);
            && t in s.db.tenants && s.db.tenants[t].namespace == NamespaceName(t) && b in s.db.builds
            && NAMESPACE in Look(s.cluster, NamespaceName(t)).objects
  {
    DeployableBuild(steps, t, b);
  }

  // ----- Tenants, keys and kubeconfigs -----

  lemma BeginTenantTurn(s: State)
    ensures var s' := Apply(s, BeginTenant); var w := s.nextWorker;
            && s'.db == s.db.(nextTenant := s.db.nextTenant + 1) && s'.cluster == s.cluster
            && w in s'.workers && s'.workers[w] == TenantTransaction(s.db.nextTenant)
  {}

  lemma CommitTenantTurn(s: State, w: nat, t: nat, name: string, hash: string)
    requires w in s.workers && s.workers[w] == TenantTransaction(t)
    ensures var s' := Apply(s, CommitTenant(w, name, hash));
            && s'.cluster == s.cluster
            && s'.db == if HashTaken(s.db, hash) then s.db
                        else s.db.(tenants := s.db.tenants[t := TenantRow(NamespaceName(t), name, true)],
                                   keys := s.db.keys[s.db.nextKey := KeyRow(t, hash, "primary", false)],
                                   nextKey := s.db.nextKey + 1)
  {
    hide HashTaken;
  }

  lemma NewKeyTurn(s: State, w: nat, t: nat, hash: string, name: string, a: Answer)
    requires w in s.workers && s.workers[w] == Admitted(t, NewKey(hash, name))
    ensures var s' := Apply(s, Work(w, a));
            && s'.cluster == s.cluster
            && s'.db == if !Lands(a) || t !in s.db.tenants || HashTaken(s.db, hash) || NameTaken(s.db, t, name)
                        then s.db
                        else s.db.(keys := s.db.keys[s.db.nextKey := KeyRow(t, hash, name, false)],
                                   nextKey := s.db.nextKey + 1)
  {
    hide HashTaken, NameTaken;
  }

  lemma RegisterTurn(s: State, w: nat, t: nat, secret: string, a: Answer)
    requires w in s.workers && s.workers[w] == Admitted(t, Register(secret))
    ensures var s' := Apply(s, Work(w, a)); var r := s.db.nextRegistration;
            && s'.cluster == s.cluster
            && s'.db == if !Lands(a) || t !in s.db.tenants then s.db
                        else s.db.(registrations := s.db.registrations[r := Registration(t, secret, true)],
                                   nextRegistration := r + 1)
  {}

  lemma RevokeKeyTurn(s: State, w: nat, t: nat, k: nat, a: Answer)
    requires w in s.workers && s.workers[w] == Admitted(t, RevokeKey(k))
    requires (k in s.db.keys ==> s.db.keys[k].tenant in s.db.tenants)
    ensures var s' := Apply(s, Work(w, a));
            && s'.cluster == s.cluster
            && s'.db == if !Lands(a) || k !in s.db.keys || s.db.keys[k].tenant != t then s.db
                        else s.db.(keys := s.db.keys[k := s.db.keys[k].(revoked := true)])
  {}

  lemma KeyHasTenant(steps: seq<Step>, k: nat)
    ensures var db := Run(steps).db; k in db.keys ==> db.keys[k].tenant in db.tenants
  {
    RunOk(steps);
  }

  lemma KubeconfigBegins(s: State, w: nat, t: nat, a: Answer)
    requires w in s.workers && s.workers[w] == Admitted(t, Kubeconfig)
    ensures var s' := Apply(s, Work(w, a));
            && s'.db == s.db && s'.cluster == s.cluster
            && (a.fault.NoFault? && t in s.db.tenants ==>
                  w in s'.workers && s'.workers[w] == KubeconfigHandler(t, s.db.tenants[t].namespace, 0))
  {}

  lemma KubeconfigTurn(s: State, w: nat, t: nat, ns: string, k: nat, a: Answer)
    requires w in s.workers && s.workers[w] == KubeconfigHandler(t, ns, k) && k < ALL_OBJECTS
    ensures var s' := Apply(s, Work(w, a));
            var (n, reply) := CreateObject(Look(s.cluster, ns), k, ManifestFor(k, a.dns));
            && s'.db == s.db
            && s'.cluster == (if a.fault.Rejected? || n == Look(s.cluster, ns) then s.cluster else s.cluster[ns := n])
            && (!(a.fault.Rejected? || reply.NotFound? || a.fault.LostReply?) ==>
                  w in s'.workers && s'.workers[w] == KubeconfigHandler(t, ns, k + 1))
  {
    hide CreateObject, ManifestFor;
  }
}
