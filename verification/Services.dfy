/**
  The services as the methods they are, on a database and a cluster that they change
  step by step. The ghost trace records each commit and each call as a step of the
  transition system; Valid says that the run of these steps has led to this database
  and this cluster, so whatever holds after every run holds of a valid platform.
 */
module Services {
  import opened Options
  import opened Naming
  import opened Kubernetes
  import opened ControlPlane
  import opened Convergence
  import opened Turns
  import opened StepProof
  import Theorems

  /** The two clusters are the same outside one namespace. */
  ghost predicate SameElsewhere(c: map<string, Namespace>, c': map<string, Namespace>, ns: string) {
    forall m | m != ns :: (m in c <==> m in c') && (m in c ==> c[m] == c'[m])
  }

  lemma SameIsSame(c: map<string, Namespace>, ns: string)
    ensures SameElsewhere(c, c, ns)
  {}

  lemma SameTransitive(a: map<string, Namespace>, b: map<string, Namespace>, c: map<string, Namespace>, ns: string)
    requires SameElsewhere(a, b, ns) && SameElsewhere(b, c, ns)
    ensures SameElsewhere(a, c, ns)
  {}

  datatype Task = PollBuild(build: nat, ns: string) | PollDeployment(deployment: nat, ns: string)

  /** The environment's answers to the calls of one build request. */
  datatype BuildEnv = BuildEnv(
    insert: Answer, refresh: Answer, objects: nat -> Answer, image: Answer, commit: Answer, reread: Answer,
    fail: Answer)

  /**
    Stranded: an exception left the handler after the row was stored; `unrecorded` is
    the error it was about to record, if it got that far.
   */
  datatype BuildResult =
    | NotStored
    | Started(build: nat, ns: string)
    | NotStarted(build: nat, error: string)
    | Stranded(build: nat, unrecorded: Option<string>)

  predicate Ok(a: Answer) {
    a.fault.NoFault?
  }

  ghost predicate ImageCreated(env: BuildEnv) {
    (forall k: nat | k < HARDENING :: Ok(env.objects(k))) && Ok(env.image)
  }

  /** How many of the first n objects are there after the calls from the k-th on, given that all before it are. */
  function ObjectsLanded(env: nat -> Answer, k: nat, n: nat): (landed: nat)
    requires k <= n
    ensures k <= landed <= n
    decreases n - k
  {
    if k == n || !Lands(env(k)) then k
    else if !Ok(env(k)) then k + 1
    else ObjectsLanded(env, k + 1, n)
  }

  lemma LandedFrom(env: nat -> Answer, k: nat, n: nat)
    requires k < n
    ensures ObjectsLanded(env, k, n)
         == if Ok(env(k)) then ObjectsLanded(env, k + 1, n) else if Lands(env(k)) then k + 1 else k
  {}

  lemma LandedAll(env: nat -> Answer, n: nat)
    ensures ObjectsLanded(env, n, n) == n
  {}

  /** The tenant's namespace after the calls of a build request, whichever of them raised. */
  ghost function Attempted(n: Namespace, env: BuildEnv, name: string, spec: ImageSpec): Namespace {
    var done := Completed(n, ObjectsLanded(env.objects, 0, HARDENING), env.objects(NETWORK_POLICY).dns);
    if (forall k: nat | k < HARDENING :: Ok(env.objects(k))) && Lands(env.image)
    then WithImage(done, name, spec) else done
  }

  ghost predicate NothingRaises(env: BuildEnv) {
    Ok(env.insert) && Ok(env.refresh) && ImageCreated(env) && Ok(env.commit) && Ok(env.reread)
  }

  // ----- Build rows as a request writes them -----

  function QueuedRow(t: nat, source: Source): BuildRow {
    BuildRow(t, source, Queued, None, None, None, None)
  }

  function Begun(row: BuildRow, now: int): BuildRow {
    row.(status := Building, startedAt := Some(now))
  }

  function NotBegun(row: BuildRow, error: string, now: int): BuildRow {
    row.(status := BuildFailed, error := Some("Failed to start build: " + error), endedAt := Some(now))
  }

  function WithRow(db: Database, b: nat, row: BuildRow): Database {
    db.(builds := db.builds[b := row])
  }

  function WithNewBuild(db: Database, row: BuildRow): Database {
    WithRow(db, db.nextBuild, row).(nextBuild := db.nextBuild + 1)
  }

  lemma RowReplaced(db: Database, row: BuildRow, row': BuildRow)
    ensures var db' := WithNewBuild(db, row);
            && db.nextBuild in db'.builds && db'.builds[db.nextBuild] == row && db'.tenants == db.tenants
            && WithRow(db', db.nextBuild, row') == WithNewBuild(db, row')
  {
    var b := db.nextBuild;
    assert db.builds[b := row][b := row'] == db.builds[b := row'];
  }

  lemma RowRewritten(db: Database, b: nat, row: BuildRow, row': BuildRow)
    ensures WithRow(WithRow(db, b, row), b, row') == WithRow(db, b, row')
    ensures b in WithRow(db, b, row).builds && WithRow(db, b, row).builds[b] == row
  {
    assert db.builds[b := row][b := row'] == db.builds[b := row'];
  }

  lemma RowSame(db: Database, b: nat)
    requires b in db.builds
    ensures WithRow(db, b, db.builds[b]) == db
  {
    assert db.builds[b := db.builds[b]] == db.builds;
  }

  // ----- Deployment rows as a request writes them -----

  /** The environment's answers to the calls of one deploy request; `patch` is asked for on a redeploy only. */
  datatype DeployEnv = DeployEnv(
    lookup: Answer, insert: Answer, refresh: Answer, create: Answer, patch: Answer, service: Answer,
    commit: Answer, reread: Answer, fail: Answer)

  /** Invalid: 422, 400 or 409, by the schema or by the state of the build. */
  datatype DeployResult =
    | Invalid
    | DeployNotStored
    | Deploys(deployment: nat, ns: string)
    | DoesNotDeploy(deployment: nat)
    | DeployStranded(deployment: nat)   // an exception left the handler after the row was stored

  predicate Upserts(env: DeployEnv, n: Namespace) {
    NAMESPACE in n.objects && Ok(env.create) && (n.app.Some? ==> Ok(env.patch))
  }

  /** All calls of create_tenant_deployment succeed on n. */
  predicate AppliesTo(env: DeployEnv, n: Namespace) {
    Upserts(env, n) && Ok(env.service)
  }

  /** Create, or patch on conflict, whether or not the reply arrives. */
  function AppAttempted(n: Namespace, env: DeployEnv, image: Option<string>, replicas: int): Namespace {
    var lands := if n.app.None? then Lands(env.create) else Ok(env.create) && Lands(env.patch);
    if NAMESPACE in n.objects && lands then n.(app := Some(Upserted(n.app, image, replicas))) else n
  }

  /** The tenant's namespace after the calls of a deploy request, whichever of them raised. */
  function DeployAttempted(n: Namespace, env: DeployEnv, image: Option<string>, replicas: int): Namespace {
    var n' := AppAttempted(n, env, image, replicas);
    if Upserts(env, n) && Lands(env.service) then n'.(service := true) else n'
  }

  function WithDeployment(db: Database, d: nat, row: DeployRow): Database {
    db.(deployments := db.deployments[d := row])
  }

  function WithNewDeployment(db: Database, row: DeployRow): Database {
    WithDeployment(db, db.nextDeployment, row).(nextDeployment := db.nextDeployment + 1)
  }

  lemma DeploymentReplaced(db: Database, row: DeployRow, row': DeployRow)
    ensures var db' := WithNewDeployment(db, row);
            && db.nextDeployment in db'.deployments && db'.deployments[db.nextDeployment] == row
            && db'.tenants == db.tenants
            && WithDeployment(db', db.nextDeployment, row') == WithNewDeployment(db, row')
  {
    var d := db.nextDeployment;
    assert db.deployments[d := row][d := row'] == db.deployments[d := row'];
  }

  lemma DeploymentRewritten(db: Database, d: nat, row: DeployRow, row': DeployRow)
    ensures WithDeployment(WithDeployment(db, d, row), d, row') == WithDeployment(db, d, row')
  {
    assert db.deployments[d := row][d := row'] == db.deployments[d := row'];
  }

  // ----- Tenant updates -----

  /** A field that was given; the schema lets a null through. */
  datatype TenantField = SetName(name: Option<string>) | SetActive(active: Option<bool>)

  datatype UpdateResult = NoSuchTenant | NothingToSet | TenantUpdated | UpdateRaised

  /** What the given fields set the name to, if they do. */
  function LastName(fields: seq<TenantField>): Option<Option<string>> {
    if fields == [] then None
    else
      var n := |fields| - 1;
      if fields[n].SetName? then Some(fields[n].name) else LastName(fields[..n])
  }

  function LastActive(fields: seq<TenantField>): Option<Option<bool>> {
    if fields == [] then None
    else
      var n := |fields| - 1;
      if fields[n].SetActive? then Some(fields[n].active) else LastActive(fields[..n])
  }

  /** Neither column may be null. */
  predicate LeavesNull(fields: seq<TenantField>) {
    LastName(fields) == Some(None) || LastActive(fields) == Some(None)
  }

  function Given<T>(value: Option<Option<T>>): Option<T> {
    if value.Some? then value.value else None
  }

  // ----- What a deploy request leaves -----

  predicate NoDeployCallRaises(env: DeployEnv, n: Namespace) {
    && Ok(env.lookup) && Ok(env.insert) && Ok(env.refresh)
    && Ok(env.create) && (n.app.Some? ==> Ok(env.patch)) && Ok(env.service) && Ok(env.commit) && Ok(env.reread)
  }

  lemma AppliesThere(env: DeployEnv, n: Namespace)
    requires NAMESPACE in n.objects
    ensures AppliesTo(env, n) <==> Ok(env.create) && (n.app.Some? ==> Ok(env.patch)) && Ok(env.service)
  {}

  /** The row and the namespace once the row is stored, in each way the request can end. */
  ghost predicate DeployOutcome(db: Database, db': Database, n: Namespace, n': Namespace,
                                t: nat, b: nat, replicas: int, image: Option<string>, env: DeployEnv, r: DeployResult) {
    var calls := Ok(env.insert) && Ok(env.refresh);
    var status := if calls && AppliesTo(env, n) && Lands(env.commit) then Deploying else Pending;
    && n' == (if calls then DeployAttempted(n, env, image, replicas) else n)
    && (r.DoesNotDeploy? ==> calls && Ok(env.fail)) && (r.DeployStranded? ==> !calls || !Ok(env.fail))
    && var failed := r.DoesNotDeploy? || (r.DeployStranded? && calls && Lands(env.fail));
       db' == WithNewDeployment(db, DeployRow(t, b, if failed then DeployFailed else status, replicas))
  }

  class Platform {
    var db: Database
    var cluster: map<string, Namespace>
    var tasks: seq<Task>
    ghost var trace: seq<Step>

    ghost predicate Valid()
      reads this
    {
      Run(trace).db == db && Run(trace).cluster == cluster
    }

    ghost predicate Runs(w: nat, x: Worker)
      reads this
    {
      w in Run(trace).workers && Run(trace).workers[w] == x
    }

    constructor ()
      ensures Valid() && trace == [] && tasks == []
    {
      db, cluster := INITIAL.db, map[];
      tasks := [];
      trace := [];
    }

    // ----- k8s_resources.py -----

    method CreateOr409(ns: string, k: nat, a: Answer) returns (raised: bool)
      requires k < ALL_OBJECTS
      modifies this`cluster
      ensures var (n, reply) := CreateObject(Look(old(cluster), ns), k, ManifestFor(k, a.dns));
              && Look(cluster, ns) == (if a.fault.Rejected? then Look(old(cluster), ns) else n)
              && cluster == (if Look(cluster, ns) == Look(old(cluster), ns) then old(cluster)
                             else old(cluster)[ns := n])
              && raised == (a.fault.Rejected? || reply.NotFound? || a.fault.LostReply?)
    {
      if a.fault.Rejected? {
        return true;
      }
      var n := Look(cluster, ns);
      var (n', reply) := CreateObject(n, k, ManifestFor(k, a.dns));
      if n' != n { cluster := cluster[ns := n']; }
      return reply.NotFound? || a.fault.LostReply?;
    }

    /** The k-th create-or-409 block, in a namespace that was n before the first. */
    method EnsureObject(ns: string, k: nat, a: Answer, ghost w: nat, ghost x: Worker, ghost n: Namespace,
                        ghost dns: Option<string>)
      returns (raised: bool)
      requires Valid() && x.BuildHandler? && x.ns == ns && k < HARDENING && Runs(w, x.(buildPc := Ensuring(k)))
      requires Look(cluster, ns) == Completed(n, k, dns) && (k == NETWORK_POLICY ==> a.dns == dns)
      modifies this`cluster, this`trace
      ensures Valid() && SameElsewhere(old(cluster), cluster, ns) && raised == !Ok(a)
      ensures Look(cluster, ns) == Completed(n, if Lands(a) then k + 1 else k, dns)
      ensures HasFirst(n, HARDENING) ==> cluster == old(cluster)
      ensures Runs(w, x.(buildPc := if raised then FailingBuild("Failed to start build: " + a.error)
                                    else Ensuring(k + 1)))
    {
      hide Apply, Run, CreateObject, ManifestFor, Completed;
      if k != NETWORK_POLICY { OnlyPolicyAsksDns(k, a.dns, dns); }
      CompletedStep(n, k, dns);
      if HasFirst(n, HARDENING) {
        CompletedIsNoOp(n, k, dns);
        CompletedIsNoOp(n, k + 1, dns);
      }
      EnsureTurn(Run(trace), w, x, k, a);
      Extend(trace, Work(w, a));
      raised := CreateOr409(ns, k, a);
      trace := trace + [Work(w, a)];
    }

    /**
      ensure_tenant_namespace, on behalf of a build handler. It raises exactly when a call
      does. A normal return leaves all six objects; an exception leaves the first few of
      them; if they were all there, nothing changes at all.
     */
    method EnsureTenantNamespace(ns: string, env: nat -> Answer, ghost w: nat, ghost x: Worker)
      returns (error: Option<string>)
      requires Valid() && x.BuildHandler? && x.ns == ns && x.buildPc == Ensuring(0) && Runs(w, x)
      modifies this`cluster, this`trace
      ensures Valid() && SameElsewhere(old(cluster), cluster, ns)
      ensures error.Some? <==> exists k: nat :: k < HARDENING && !Ok(env(k))
      ensures error.None? ==> ObjectsLanded(env, 0, HARDENING) == HARDENING
      ensures Look(cluster, ns)
           == Completed(Look(old(cluster), ns), ObjectsLanded(env, 0, HARDENING), env(NETWORK_POLICY).dns)
      ensures AddsIsolation(Look(old(cluster), ns), Look(cluster, ns), env(NETWORK_POLICY).dns)
      ensures HasFirst(Look(old(cluster), ns), HARDENING) ==> cluster == old(cluster)
      ensures Runs(w, x.(buildPc := if error.None? then CreatingImage
                                    else FailingBuild("Failed to start build: " + error.value)))
    {
      hide Apply, Run, Completed, Look, HasFirst, SameElsewhere, ObjectsLanded, AddsIsolation;
      CompletedIsolates(Look(cluster, ns), ObjectsLanded(env, 0, HARDENING), env(NETWORK_POLICY).dns);
      error := EnsureObjects(ns, env, w, x);
      if error.Some? {
        return;
      }
      EnsureDone(Run(trace), w, x, env(0));
      Extend(trace, Work(w, env(0)));
      trace := trace + [Work(w, env(0))];
    }

    method EnsureObjects(ns: string, env: nat -> Answer, ghost w: nat, ghost x: Worker)
      returns (error: Option<string>)
      requires Valid() && x.BuildHandler? && x.ns == ns && x.buildPc == Ensuring(0) && Runs(w, x)
      modifies this`cluster, this`trace
      ensures Valid() && SameElsewhere(old(cluster), cluster, ns)
      ensures error.Some? <==> exists k: nat :: k < HARDENING && !Ok(env(k))
      ensures error.None? ==> ObjectsLanded(env, 0, HARDENING) == HARDENING
      ensures Look(cluster, ns)
           == Completed(Look(old(cluster), ns), ObjectsLanded(env, 0, HARDENING), env(NETWORK_POLICY).dns)
      ensures HasFirst(Look(old(cluster), ns), HARDENING) ==> cluster == old(cluster)
      ensures Runs(w, x.(buildPc := if error.None? then Ensuring(HARDENING)
                                    else FailingBuild("Failed to start build: " + error.value)))
    {
      hide Apply, Run, Completed, Look, HasFirst, SameElsewhere, ObjectsLanded;
      ghost var n, dns := Look(cluster, ns), env(NETWORK_POLICY).dns;
      CompletedNone(n, dns);
      SameIsSame(cluster, ns);
      var k := 0;
      while k < HARDENING
        invariant k <= HARDENING && Valid() && Runs(w, x.(buildPc := Ensuring(k)))
        invariant forall j: nat | j < k :: Ok(env(j))
        invariant ObjectsLanded(env, 0, HARDENING) == ObjectsLanded(env, k, HARDENING)
        invariant Look(cluster, ns) == Completed(n, k, dns) && SameElsewhere(old(cluster), cluster, ns)
        invariant HasFirst(n, HARDENING) ==> cluster == old(cluster)
      {
        ghost var before := cluster;
        LandedFrom(env, k, HARDENING);
        var raised := EnsureObject(ns, k, env(k), w, x, n, dns);
        SameTransitive(old(cluster), before, cluster, ns);
        if raised {
          return Some(env(k).error);
        }
        k := k + 1;
      }
      LandedAll(env, HARDENING);
      return None;
    }

    // ----- services/build_jobs.py -----

    /** The insert of the `queued` row; it may be stored even though the commit raises. */
    method InsertBuildRow(t: nat, source: Source, a: Answer, ghost w: nat) returns (b: Option<nat>)
      requires Valid() && Runs(w, Admitted(t, NewBuild(source)))
      modifies this`db, this`trace
      ensures Valid()
      ensures b == if t in old(db).tenants && Lands(a) then Some(old(db).nextBuild) else None
      ensures db == if b.Some? then WithNewBuild(old(db), QueuedRow(t, source)) else old(db)
      ensures b.Some? && Ok(a) ==> Runs(w, BuildHandler(t, old(db).tenants[t].namespace, b.value, source, Ensuring(0)))
    {
      hide Apply, Run;
      InsertBuildTurn(Run(trace), w, t, source, a);
      Extend(trace, Work(w, a));
      trace := trace + [Work(w, a)];
      if t !in db.tenants || !Lands(a) {
        return None;
      }
      b := Some(db.nextBuild);
      db := WithNewBuild(db, QueuedRow(t, source));
    }

    method CreateKpackImage(t: nat, ns: string, b: nat, source: Source, a: Answer, ghost w: nat) returns (raised: bool)
      requires Valid() && Runs(w, BuildHandler(t, ns, b, source, CreatingImage))
      modifies this`cluster, this`trace
      ensures Valid() && SameElsewhere(old(cluster), cluster, ns)
      ensures var (n, reply) := CreateImage(Look(old(cluster), ns), ImageName(b), SpecOf(t, b, source));
              && Look(cluster, ns) == (if a.fault.Rejected? then Look(old(cluster), ns) else n)
              && raised == (a.fault.Rejected? || !reply.Done? || a.fault.LostReply?)
      ensures !raised ==>
                && ImageName(b) in Look(cluster, ns).images
                && var spec := Look(cluster, ns).images[ImageName(b)].spec;
                   && spec.tag == REGISTRY + ":" + ImageTag(t, b) && spec.account == "tenant-build-sa"
                   && spec.source.gitUrl == source.gitUrl && spec.source.revision == source.revision
                   && (spec.source.subPath.Some? <==> source.subPath.Some? && source.subPath.value != "")
                   && (spec.source.subPath.Some? ==> spec.source.subPath == source.subPath)
      ensures Runs(w, BuildHandler(t, ns, b, source,
                        if raised then FailingBuild("Failed to start build: " + a.error) else CommittingBuilding))
    {
      hide Apply, Run, SpecOf, CreateImage;
      ImageIsMade(Look(cluster, ns), t, b, source);
      CreateImageTurn(Run(trace), w, BuildHandler(t, ns, b, source, CreatingImage), a);
      Extend(trace, Work(w, a));
      trace := trace + [Work(w, a)];
      if a.fault.Rejected? {
        return true;
      }
      var n := Look(cluster, ns);
      var (n', reply) := CreateImage(n, ImageName(b), SpecOf(t, b, source));
      if n' != n { cluster := cluster[ns := n']; }
      return !reply.Done? || a.fault.LostReply?;
    }

    /** The commit of `building` and the refresh after it; either may raise. */
    method CommitBuilding(b: nat, a: Answer, reread: Answer, ghost w: nat, ghost x: Worker)
      returns (error: Option<string>)
      requires Valid() && b in db.builds && x.BuildHandler? && x.build == b && x.buildPc == CommittingBuilding
      requires Runs(w, x)
      modifies this`db, this`trace
      ensures Valid()
      ensures db == if Lands(a) then WithRow(old(db), b, Begun(old(db).builds[b], a.now)) else old(db)
      ensures error.None? <==> Ok(a) && Ok(reread)
      ensures Runs(w, if error.None? then BuildPoller(x.tenant, x.ns, b, 0, BuildPolling)
                      else x.(buildPc := FailingBuild("Failed to start build: " + error.value)))
    {
      hide Apply, Run;
      CommitBuildTurn(Run(trace), w, x, a);
      Extend(trace, Work(w, a));
      trace := trace + [Work(w, a)];
      if Lands(a) { db := WithRow(db, b, Begun(db.builds[b], a.now)); }
      if !Ok(a) {
        return Some(a.error);
      }
      RefreshBuildTurn(Run(trace), w, x.(buildPc := RefreshingBuilding), reread);
      Extend(trace, Work(w, reread));
      trace := trace + [Work(w, reread)];
      return if Ok(reread) then None else Some(reread.error);
    }

    method FailBuild(b: nat, error: string, a: Answer, ghost w: nat, ghost x: Worker) returns (stored: bool)
      requires Valid() && b in db.builds && x.BuildHandler? && x.build == b
      requires x.buildPc == FailingBuild("Failed to start build: " + error) && Runs(w, x)
      modifies this`db, this`trace
      ensures Valid() && stored == Ok(a)
      ensures db == if Lands(a) then WithRow(old(db), b, NotBegun(old(db).builds[b], error, a.now)) else old(db)
    {
      hide Apply, Run;
      FailBuildTurn(Run(trace), w, x, a);
      Extend(trace, Work(w, a));
      trace := trace + [Work(w, a)];
      if Lands(a) { db := WithRow(db, b, NotBegun(db.builds[b], error, a.now)); }
      return Ok(a);
    }

    /**
      create_build_job_service. The build starts exactly when no call raises: the row's key
      is new, so its Image name is free. Nothing but this row and the tenant's namespace
      changes; a build that does not start has a row that says why, unless even that
      commit fails.
     */
    method CreateBuildJob(t: nat, source: Source, env: BuildEnv, ghost w: nat) returns (r: BuildResult)
      requires Valid() && Runs(w, Admitted(t, NewBuild(source)))
      modifies this`db, this`cluster, this`trace
      ensures Valid()
      ensures r.NotStored? <==> t !in old(db).tenants || !Lands(env.insert)
      ensures r.NotStored? ==> db == old(db) && cluster == old(cluster)
      ensures r.Started? <==> t in old(db).tenants && NothingRaises(env)
      ensures !r.NotStored? ==> r.build == old(db).nextBuild && SameElsewhere(old(cluster), cluster, NamespaceName(t))
      ensures var calls := Ok(env.insert) && Ok(env.refresh);
              var queued, begun := QueuedRow(t, source), calls && ImageCreated(env) && Lands(env.commit);
              var row := if begun then Begun(queued, env.commit.now) else queued;
              match r
              case NotStored => true
              case Started(_, _) => db == WithNewBuild(old(db), row)
              case NotStarted(_, error) =>
                Ok(env.fail) && db == WithNewBuild(old(db), NotBegun(row, error, env.fail.now))
              case Stranded(_, None) => !calls && db == WithNewBuild(old(db), row)
              case Stranded(_, Some(error)) =>
                && calls && !Ok(env.fail)
                && db == WithNewBuild(old(db), if Lands(env.fail) then NotBegun(row, error, env.fail.now) else row)
      ensures !r.NotStored? ==>
                var n, n' := Look(old(cluster), NamespaceName(t)), Look(cluster, NamespaceName(t));
                n' == if Ok(env.insert) && Ok(env.refresh)
                      then Attempted(n, env, ImageName(r.build), SpecOf(t, r.build, source)) else n
      ensures r.Started? ==> r.ns == NamespaceName(t) && Runs(w, BuildPoller(t, r.ns, r.build, 0, BuildPolling))
    {
      hide Apply, Run, SpecOf, Attempted, ImageCreated, Look, SameElsewhere, WithRow, WithNewBuild, QueuedRow, Begun,
        NotBegun;
      TenantIsNamed(trace, t);
      SameIsSame(cluster, NamespaceName(t));
      ghost var queued := QueuedRow(t, source);
      RowReplaced(db, queued, queued);
      RowReplaced(db, queued, Begun(queued, env.commit.now));
      var inserted := InsertBuildRow(t, source, env.insert, w);
      if inserted.None? {
        return NotStored;
      }
      var b, ns := inserted.value, db.tenants[t].namespace;
      if !Ok(env.insert) {
        return Stranded(b, None);
      }
      if !Ok(env.refresh) {
        CrashTurn(Run(trace), w);
        Extend(trace, Crash(w));
        trace := trace + [Crash(w)];
        return Stranded(b, None);
      }
      r := ConcludeBuild(t, ns, b, source, env, w);
      if r.NotStarted? || r.Stranded? {
        ghost var error := if r.NotStarted? then r.error else r.unrecorded.value;
        RowReplaced(old(db), queued, NotBegun(queued, error, env.fail.now));
        RowReplaced(old(db), queued, NotBegun(Begun(queued, env.commit.now), error, env.fail.now));
      }
    }

    method ConcludeBuild(t: nat, ns: string, b: nat, source: Source, env: BuildEnv, ghost w: nat)
      returns (r: BuildResult)
      requires Valid() && Runs(w, BuildHandler(t, ns, b, source, Ensuring(0)))
      requires b in db.builds && ImageName(b) !in Look(cluster, ns).images
      modifies this`db, this`cluster, this`trace
      ensures Valid() && SameElsewhere(old(cluster), cluster, ns)
      ensures r.Started? <==> ImageCreated(env) && Ok(env.commit) && Ok(env.reread)
      ensures Look(cluster, ns) == Attempted(Look(old(cluster), ns), env, ImageName(b), SpecOf(t, b, source))
      ensures var begun := ImageCreated(env) && Lands(env.commit);
              var row := if begun then Begun(old(db).builds[b], env.commit.now) else old(db).builds[b];
              match r
              case NotStored => false
              case Started(c, n) =>
                c == b && n == ns && db == WithRow(old(db), b, row) && Runs(w, BuildPoller(t, ns, b, 0, BuildPolling))
              case NotStarted(c, error) =>
                c == b && Ok(env.fail) && db == WithRow(old(db), b, NotBegun(row, error, env.fail.now))
              case Stranded(_, None) => false
              case Stranded(c, Some(error)) =>
                && c == b && !Ok(env.fail)
                && db == WithRow(old(db), b, if Lands(env.fail) then NotBegun(row, error, env.fail.now) else row)
    {
      hide Apply, Run, SpecOf, Attempted, ImageCreated, Look, SameElsewhere, WithRow, Begun, NotBegun;
      RowSame(db, b);
      var error := StartBuild(t, ns, b, source, env, w);
      if error.None? {
        return Started(b, ns);
      }
      ghost var row := if ImageCreated(env) && Lands(env.commit) then Begun(old(db).builds[b], env.commit.now)
                       else old(db).builds[b];
      assert db == WithRow(old(db), b, row);
      RowRewritten(old(db), b, row, NotBegun(row, error.value, env.fail.now));
      var stored := FailBuild(b, error.value, env.fail, w,
        BuildHandler(t, ns, b, source, FailingBuild("Failed to start build: " + error.value)));
      return if stored then NotStarted(b, error.value) else Stranded(b, error);
    }

    /** The part of create_build_job_service inside its second try block. */
    method StartBuild(t: nat, ns: string, b: nat, source: Source, env: BuildEnv, ghost w: nat)
      returns (error: Option<string>)
      requires Valid() && Runs(w, BuildHandler(t, ns, b, source, Ensuring(0)))
      requires b in db.builds && ImageName(b) !in Look(cluster, ns).images
      modifies this`db, this`cluster, this`trace
      ensures Valid() && SameElsewhere(old(cluster), cluster, ns)
      ensures db == if ImageCreated(env) && Lands(env.commit)
                    then WithRow(old(db), b, Begun(old(db).builds[b], env.commit.now)) else old(db)
      ensures error.None? <==> ImageCreated(env) && Ok(env.commit) && Ok(env.reread)
      ensures error.None? ==> Runs(w, BuildPoller(t, ns, b, 0, BuildPolling))
      ensures error.Some? ==>
                Runs(w, BuildHandler(t, ns, b, source, FailingBuild("Failed to start build: " + error.value)))
      ensures Look(cluster, ns) == Attempted(Look(old(cluster), ns), env, ImageName(b), SpecOf(t, b, source))
    {
      hide Apply, Run, SpecOf, Completed, CreateImage, WithImage, Look, SameElsewhere, HasFirst, ObjectsLanded;
      ghost var before := cluster;
      error := EnsureTenantNamespace(ns, env.objects, w, BuildHandler(t, ns, b, source, Ensuring(0)));
      if error.Some? {
        return;
      }
      CompletedHasNamespace(Look(old(cluster), ns), HARDENING, env.objects(NETWORK_POLICY).dns);
      ImageIsCreated(Look(cluster, ns), ImageName(b), SpecOf(t, b, source));
      ghost var ensured := cluster;
      var raised := CreateKpackImage(t, ns, b, source, env.image, w);
      SameTransitive(before, ensured, cluster, ns);
      if raised {
        return Some(env.image.error);
      }
      error := CommitBuilding(b, env.commit, env.reread, w, BuildHandler(t, ns, b, source, CommittingBuilding));
    }

    /** routes/build_jobs.py: a poller is scheduled exactly for a build that started. */
    method PostBuildJob(t: nat, hash: string, source: Source, env: BuildEnv) returns (r: BuildResult)
      requires Valid()
      modifies this
      ensures Valid()
      ensures r.Started? <==> Authorised(old(db), t, hash) && NothingRaises(env)
      ensures tasks == if r.Started? then old(tasks) + [PollBuild(r.build, r.ns)] else old(tasks)
      ensures !Authorised(old(db), t, hash) ==> r.NotStored? && db == old(db) && cluster == old(cluster)
    {
      hide Apply, Run, SpecOf, Completed;
      if !Authorised(db, t, hash) {
        return NotStored;
      }
      ghost var w := Run(trace).nextWorker;
      AdmitTurn(Run(trace), t, hash, NewBuild(source));
      Extend(trace, Admit(t, hash, NewBuild(source)));
      trace := trace + [Admit(t, hash, NewBuild(source))];
      r := CreateBuildJob(t, source, env, w);
      if r.Started? { tasks := tasks + [PollBuild(r.build, r.ns)]; }
    }

    // ----- services/deployments.py -----

    /** Create the app or, if it is there, patch it. */
    method UpsertApp(ns: string, image: Option<string>, replicas: int, env: DeployEnv, ghost w: nat, ghost x: Worker)
      returns (raised: bool)
      requires Valid() && x.DeployHandler? && x.ns == ns && x.image == image && x.replicas == replicas
      requires x.deployPc == CreatingApp && Runs(w, x)
      modifies this`cluster, this`trace
      ensures Valid() && SameElsewhere(old(cluster), cluster, ns)
      ensures var n := Look(old(cluster), ns);
              raised == !Upserts(env, n) && Look(cluster, ns) == AppAttempted(n, env, image, replicas)
      ensures Runs(w, x.(deployPc := if raised then FailingDeploy else CreatingService))
    {
      hide Apply, Run;
      CreateAppTurn(Run(trace), w, x, env.create);
      Extend(trace, Work(w, env.create));
      trace := trace + [Work(w, env.create)];
      if env.create.fault.Rejected? {
        return true;
      }
      var (n, reply) := CreateApp(Look(cluster, ns), image, replicas);
      if n != Look(cluster, ns) { cluster := cluster[ns := n]; }
      if reply.NotFound? || env.create.fault.LostReply? {
        return true;
      }
      if reply.Conflict? {
        raised := Patch(ns, image, replicas, env.patch, w, x.(deployPc := PatchingApp));
      } else {
        raised := false;
      }
    }

    method Patch(ns: string, image: Option<string>, replicas: int, a: Answer, ghost w: nat, ghost x: Worker)
      returns (raised: bool)
      requires Valid() && x.DeployHandler? && x.ns == ns && x.image == image && x.replicas == replicas
      requires x.deployPc == PatchingApp && Runs(w, x) && Look(cluster, ns).app.Some?
      modifies this`cluster, this`trace
      ensures Valid() && SameElsewhere(old(cluster), cluster, ns) && raised == !Ok(a)
      ensures var n := Look(old(cluster), ns);
              Look(cluster, ns) == if a.fault.Rejected? then n else n.(app := Some(Upserted(n.app, image, replicas)))
      ensures Runs(w, x.(deployPc := if raised then FailingDeploy else CreatingService))
    {
      hide Apply, Run;
      PatchAppTurn(Run(trace), w, x, a);
      Extend(trace, Work(w, a));
      trace := trace + [Work(w, a)];
      if a.fault.Rejected? {
        return true;
      }
      var (n, reply) := PatchApp(Look(cluster, ns), image, replicas);
      if n != Look(cluster, ns) { cluster := cluster[ns := n]; }
      return a.fault.LostReply?;
    }

    /**
      create_tenant_deployment. It succeeds exactly when the namespace exists and no call
      raises; then only the image and the count of the app differ from what was there.
      Even an exception leaves objects, Images and the pod template alone.
     */
    method CreateTenantDeployment(ns: string, image: Option<string>, replicas: int, env: DeployEnv, ghost w: nat,
                                  ghost x: Worker)
      returns (raised: bool)
      requires Valid() && x.DeployHandler? && x.ns == ns && x.image == image && x.replicas == replicas
      requires x.deployPc == CreatingApp && Runs(w, x)
      modifies this`cluster, this`trace
      ensures Valid() && SameElsewhere(old(cluster), cluster, ns)
      ensures var n, n' := Look(old(cluster), ns), Look(cluster, ns);
              && raised == !AppliesTo(env, n) && n' == DeployAttempted(n, env, image, replicas)
              && (!raised ==> n' == Deployed(n, image, replicas))
              && n'.objects == n.objects && n'.images == n.images
              && (n.app.Some? ==> n'.app.Some? && n'.app.value.template == n.app.value.template)
      ensures Runs(w, x.(deployPc := if raised then FailingDeploy else CommittingDeploying))
    {
      hide Apply, Run;
      raised := UpsertApp(ns, image, replicas, env, w, x);
      if raised {
        return;
      }
      CreateServiceTurn(Run(trace), w, x.(deployPc := CreatingService), env.service);
      Extend(trace, Work(w, env.service));
      trace := trace + [Work(w, env.service)];
      if env.service.fault.Rejected? {
        return true;
      }
      var (n, reply) := CreateService(Look(cluster, ns));
      if n != Look(cluster, ns) { cluster := cluster[ns := n]; }
      return reply.NotFound? || env.service.fault.LostReply?;
    }

    /** The commit of `deploying` and the refresh after it, and on an exception the commit of `failed`. */
    method ConcludeDeployment(d: nat, ns: string, image: Option<string>, replicas: int, env: DeployEnv,
                              ghost w: nat, ghost x: Worker)
      returns (r: DeployResult)
      requires Valid() && d in db.deployments && x.DeployHandler? && x.deployment == d && x.ns == ns && x.image == image
      requires x.replicas == replicas && x.deployPc == CreatingApp && Runs(w, x)
      modifies this`db, this`cluster, this`trace
      ensures Valid() && SameElsewhere(old(cluster), cluster, ns)
      ensures Look(cluster, ns) == DeployAttempted(Look(old(cluster), ns), env, image, replicas)
      ensures var begun := AppliesTo(env, Look(old(cluster), ns)) && Lands(env.commit);
              var row := if begun then old(db).deployments[d].(status := Deploying) else old(db).deployments[d];
              var failed := row.(status := DeployFailed);
              && (r.Deploys? <==> begun && Ok(env.commit) && Ok(env.reread))
              && match r
                 case Deploys(e, n) =>
                   && e == d && n == ns && db == WithDeployment(old(db), d, row)
                   && Runs(w, DeployPoller(x.tenant, ns, d, 0, DeployPolling))
                 case DoesNotDeploy(e) => e == d && Ok(env.fail) && db == WithDeployment(old(db), d, failed)
                 case DeployStranded(e) =>
                   e == d && !Ok(env.fail) && db == WithDeployment(old(db), d, if Lands(env.fail) then failed else row)
                 case _ => false
    {
      hide Apply, Run, Look, SameElsewhere, Deployed, DeployAttempted, AppliesTo, Upserted;
      ghost var row0 := db.deployments[d];
      assert db == WithDeployment(db, d, row0);
      var raised := CreateTenantDeployment(ns, image, replicas, env, w, x);
      if !raised {
        raised := CommitDeploying(d, env.commit, env.reread, w, x.(deployPc := CommittingDeploying));
        if !raised {
          return Deploys(d, ns);
        }
      }
      ghost var row := db.deployments[d];
      assert db == WithDeployment(old(db), d, row);
      DeploymentRewritten(old(db), d, row, row.(status := DeployFailed));
      r := FailDeployment(d, env.fail, w, x.(deployPc := FailingDeploy));
    }

    method FailDeployment(d: nat, a: Answer, ghost w: nat, ghost x: Worker) returns (r: DeployResult)
      requires Valid() && d in db.deployments && x.DeployHandler? && x.deployment == d && x.deployPc == FailingDeploy
      requires Runs(w, x)
      modifies this`db, this`trace
      ensures Valid() && r == if Ok(a) then DoesNotDeploy(d) else DeployStranded(d)
      ensures db == if Lands(a) then WithDeployment(old(db), d, old(db).deployments[d].(status := DeployFailed))
                    else old(db)
    {
      hide Apply, Run;
      FailDeploymentTurn(Run(trace), w, x, a);
      Extend(trace, Work(w, a));
      trace := trace + [Work(w, a)];
      if Lands(a) { db := WithDeployment(db, d, db.deployments[d].(status := DeployFailed)); }
      return if Ok(a) then DoesNotDeploy(d) else DeployStranded(d);
    }

    method CommitDeploying(d: nat, a: Answer, reread: Answer, ghost w: nat, ghost x: Worker) returns (raised: bool)
      requires Valid() && d in db.deployments && x.DeployHandler? && x.deployment == d
      requires x.deployPc == CommittingDeploying && Runs(w, x)
      modifies this`db, this`trace
      ensures Valid() && raised == !(Ok(a) && Ok(reread))
      ensures db == if Lands(a) then WithDeployment(old(db), d, old(db).deployments[d].(status := Deploying))
                    else old(db)
      ensures Runs(w, if raised then x.(deployPc := FailingDeploy)
                   else DeployPoller(x.tenant, x.ns, d, 0, DeployPolling))
    {
      hide Apply, Run;
      CommitDeploymentTurn(Run(trace), w, x, a);
      Extend(trace, Work(w, a));
      trace := trace + [Work(w, a)];
      if Lands(a) { db := WithDeployment(db, d, db.deployments[d].(status := Deploying)); }
      if !Ok(a) {
        return true;
      }
      RefreshDeploymentTurn(Run(trace), w, x.(deployPc := RefreshingDeploying), reread);
      Extend(trace, Work(w, reread));
      trace := trace + [Work(w, reread)];
      return !Ok(reread);
    }

    /**
      create_deployment_service. Only a succeeded build of the same tenant is deployed; its
      namespace is then always there, so the deployment starts exactly when no call raises.
     */
    method CreateDeployment(t: nat, b: nat, replicas: int, env: DeployEnv, ghost w: nat) returns (r: DeployResult)
      requires Valid() && Runs(w, Admitted(t, NewDeployment(b, replicas)))
      modifies this`db, this`cluster, this`trace
      ensures Valid()
      ensures r.Invalid? <==>
                || replicas < 1 || replicas > 8
                || (&& Ok(env.lookup)
                    && (b !in old(db).builds || old(db).builds[b].tenant != t || old(db).builds[b].status != Succeeded))
      ensures r.Deploys? <==>
                MayDeploy(old(db), t, b, replicas) && NoDeployCallRaises(env, Look(old(cluster), NamespaceName(t)))
      ensures r.Invalid? || r.DeployNotStored? ==> db == old(db) && cluster == old(cluster)
      ensures !r.Invalid? && !r.DeployNotStored? ==>
                && MayDeploy(old(db), t, b, replicas)
                && r.deployment == old(db).nextDeployment && SameElsewhere(old(cluster), cluster, NamespaceName(t))
                && DeployOutcome(old(db), db, Look(old(cluster), NamespaceName(t)), Look(cluster, NamespaceName(t)),
                                 t, b, replicas, old(db).builds[b].imageTag, env, r)
      ensures r.Deploys? ==> r.ns == NamespaceName(t) && Runs(w, DeployPoller(t, r.ns, r.deployment, 0, DeployPolling))
    {
      hide Apply, Run, Look, SameElsewhere, DeployOutcome, AppliesTo;
      LookupTurn(Run(trace), w, t, b, replicas, env.lookup);
      Extend(trace, Work(w, env.lookup));
      ghost var before := trace;
      trace := trace + [Work(w, env.lookup)];
      if !(1 <= replicas <= MAX_REPLICAS) {
        return Invalid;
      }
      if !Ok(env.lookup) {
        return DeployNotStored;
      }
      if !MayDeploy(db, t, b, replicas) {
        return Invalid;
      }
      BuildIsDeployable(before, t, b, replicas);
      AppliesThere(env, Look(cluster, NamespaceName(t)));
      var image, ns := db.builds[b].imageTag, db.tenants[t].namespace;
      r := StoreDeployment(t, ns, b, image, replicas, env, w);
    }

    /** From the insert of the `pending` row on. */
    method StoreDeployment(t: nat, ns: string, b: nat, image: Option<string>, replicas: int, env: DeployEnv,
                           ghost w: nat)
      returns (r: DeployResult)
      requires Valid() && t in db.tenants && db.tenants[t].namespace == ns && b in db.builds
      requires Runs(w, DeployInserting(t, b, image, replicas))
      modifies this`db, this`cluster, this`trace
      ensures Valid() && SameElsewhere(old(cluster), cluster, ns)
      ensures r.Deploys? <==>
                && Ok(env.insert) && Ok(env.refresh)
                && AppliesTo(env, Look(old(cluster), ns)) && Ok(env.commit) && Ok(env.reread)
      ensures !r.Invalid? && (r.DeployNotStored? <==> !Lands(env.insert))
      ensures r.DeployNotStored? ==> db == old(db) && cluster == old(cluster)
      ensures !r.DeployNotStored? ==>
                && r.deployment == old(db).nextDeployment
                && DeployOutcome(old(db), db, Look(old(cluster), ns), Look(cluster, ns), t, b, replicas, image, env, r)
      ensures r.Deploys? ==> r.ns == ns && Runs(w, DeployPoller(t, ns, r.deployment, 0, DeployPolling))
    {
      hide Apply, Run, Look, SameElsewhere, Deployed, AppliesTo, DeployAttempted;
      SameIsSame(cluster, ns);
      InsertDeploymentTurn(Run(trace), w, t, b, image, replicas, env.insert);
      Extend(trace, Work(w, env.insert));
      trace := trace + [Work(w, env.insert)];
      if !Lands(env.insert) {
        return DeployNotStored;
      }
      var d, row := db.nextDeployment, DeployRow(t, b, Pending, replicas);
      DeploymentReplaced(db, row, row);
      DeploymentReplaced(db, row, row.(status := Deploying));
      DeploymentReplaced(db, row, row.(status := DeployFailed));
      db := WithNewDeployment(db, row);
      if !Ok(env.insert) {
        return DeployStranded(d);
      }
      if !Ok(env.refresh) {
        CrashTurn(Run(trace), w);
        Extend(trace, Crash(w));
        trace := trace + [Crash(w)];
        return DeployStranded(d);
      }
      r := ConcludeDeployment(d, ns, image, replicas, env, w, DeployHandler(t, ns, d, image, replicas, CreatingApp));
    }

    /** routes/deployments.py: a poller is scheduled exactly for a deployment that started. */
    method PostDeployment(t: nat, hash: string, b: nat, replicas: int, env: DeployEnv) returns (r: DeployResult)
      requires Valid()
      modifies this
      ensures Valid()
      ensures r.Deploys? <==>
                && Authorised(old(db), t, hash) && MayDeploy(old(db), t, b, replicas)
                && NoDeployCallRaises(env, Look(old(cluster), NamespaceName(t)))
      ensures tasks == if r.Deploys? then old(tasks) + [PollDeployment(r.deployment, r.ns)] else old(tasks)
      ensures !Authorised(old(db), t, hash) ==> r.DeployNotStored? && db == old(db) && cluster == old(cluster)
    {
      hide Apply, Run, Look, SameElsewhere, DeployOutcome;
      if !Authorised(db, t, hash) {
        return DeployNotStored;
      }
      ghost var w := Run(trace).nextWorker;
      AdmitTurn(Run(trace), t, hash, NewDeployment(b, replicas));
      Extend(trace, Admit(t, hash, NewDeployment(b, replicas)));
      trace := trace + [Admit(t, hash, NewDeployment(b, replicas))];
      r := CreateDeployment(t, b, replicas, env, w);
      if r.Deploys? { tasks := tasks + [PollDeployment(r.deployment, r.ns)]; }
    }

    // ----- services/tenants.py -----

    /**
      create_tenant_service: insert with a placeholder, flush, rename, commit. A tenant is
      only ever seen under its own name; nobody had that name, and its namespace is empty.
     */
    method CreateTenant(name: string, hash: string, flushes: bool, commit: Fault) returns (created: Option<nat>)
      requires Valid()
      modifies this`db, this`trace
      ensures Valid()
      ensures created.Some? <==>
                flushes && commit.NoFault? && forall k | k in old(db).keys :: old(db).keys[k].hash != hash
      ensures created.Some? ==> created.value == old(db).nextTenant
      ensures var t := old(db).nextTenant;
              if flushes && !commit.Rejected? && forall k | k in old(db).keys :: old(db).keys[k].hash != hash then
                && t !in old(db).tenants
                && db == old(db).(tenants := old(db).tenants[t := TenantRow(NamespaceName(t), name, true)],
                                  nextTenant := t + 1,
                                  keys := old(db).keys[old(db).nextKey := KeyRow(t, hash, "primary", false)],
                                  nextKey := old(db).nextKey + 1)
                && (forall u | u in old(db).tenants :: old(db).tenants[u].namespace != NamespaceName(t))
                && Look(cluster, NamespaceName(t)) == EMPTY
              else db == if flushes then old(db).(nextTenant := t + 1) else old(db)
    {
      hide Apply, Run;
      if !flushes {
        return None;
      }
      var t, row := db.nextTenant, TenantRow(PLACEHOLDER, name, true);
      NextTenantIsNew(trace);
      ghost var w := Run(trace).nextWorker;
      BeginTenantTurn(Run(trace));
      Extend(trace, BeginTenant);
      trace := trace + [BeginTenant];
      db := db.(nextTenant := t + 1);
      row := row.(namespace := NamespaceName(t));
      HashTakenInKeys(old(db), db, hash);
      if commit.Rejected? {
        CrashTurn(Run(trace), w);
        Extend(trace, Crash(w));
        trace := trace + [Crash(w)];
        return None;
      }
      CommitTenantTurn(Run(trace), w, t, name, hash);
      Extend(trace, CommitTenant(w, name, hash));
      trace := trace + [CommitTenant(w, name, hash)];
      if HashTaken(db, hash) {
        return None;
      }
      db := db.(tenants := db.tenants[t := row],
                keys := db.keys[db.nextKey := KeyRow(t, hash, "primary", false)], nextKey := db.nextKey + 1);
      return if commit.NoFault? then Some(t) else None;
    }

    /** delete_tenant_service: all of the tenant's rows go, everybody else's stay, and so does the namespace. */
    method DeleteTenant(t: nat, commit: Fault) returns (count: Option<nat>)
      requires Valid()
      modifies this`db, this`trace
      ensures Valid() && count == if commit.NoFault? then Some(if t in old(db).tenants then 1 else 0) else None
      ensures db == if commit.Rejected? then old(db) else WithoutTenant(old(db), t)
      ensures !commit.Rejected? ==> t !in db.tenants && NoRowOf(db, t)
      ensures forall u | u != t :: (u in db.tenants <==> u in old(db).tenants) && RowsOfAreKept(old(db), db, u)
    {
      hide Run;
      if commit.Rejected? {
        return None;
      }
      count := if commit.LostReply? then None else Some(if t in db.tenants then 1 else 0);
      Extend(trace, Step.DeleteTenant(t));
      trace := trace + [Step.DeleteTenant(t)];
      db := WithoutTenant(db, t);
    }

    /**
      update_tenant_service. The loop sets the given fields one by one; the row then has
      exactly these, and its namespace is never among them. A null makes the commit fail.
     */
    method UpdateTenant(t: nat, fields: seq<TenantField>, commit: Fault) returns (result: UpdateResult)
      requires Valid()
      modifies this`db, this`trace
      ensures Valid()
      ensures result == if t !in old(db).tenants then NoSuchTenant else if fields == [] then NothingToSet
                        else if commit.NoFault? && !LeavesNull(fields) then TenantUpdated else UpdateRaised
      ensures if t in old(db).tenants && fields != [] && !LeavesNull(fields) && !commit.Rejected?
              then
                var row := Updated(old(db).tenants[t], Given(LastName(fields)), Given(LastActive(fields)));
                db == old(db).(tenants := old(db).tenants[t := row])
              else db == old(db)
    {
      hide Run;
      if t !in db.tenants {
        return NoSuchTenant;
      }
      if fields == [] {
        return NothingToSet;
      }
      var row := db.tenants[t];
      var name, active := Some(row.name), Some(row.active);
      for i := 0 to |fields|
        invariant name == var last := LastName(fields[..i]); if last.Some? then last.value else Some(row.name)
        invariant active == var last := LastActive(fields[..i]); if last.Some? then last.value else Some(row.active)
      {
        assert fields[..i + 1][..i] == fields[..i];
        match fields[i] {
          case SetName(value) => name := value;
          case SetActive(value) => active := value;
        }
      }
      assert fields[..|fields|] == fields;
      if name.None? || active.None? || commit.Rejected? {
        return UpdateRaised;
      }
      ghost var step := Step.UpdateTenant(t, Given(LastName(fields)), Given(LastActive(fields)));
      Extend(trace, step);
      trace := trace + [step];
      db := db.(tenants := db.tenants[t := row.(name := name.value, active := active.value)]);
      return if commit.NoFault? then TenantUpdated else UpdateRaised;
    }

    // ----- services/api_keys.py -----

    /** create_api_key_service; the two uniqueness constraints reject a used hash and a used name. */
    method CreateApiKey(t: nat, hash: string, name: string, a: Answer, ghost w: nat) returns (k: Option<nat>)
      requires Valid() && Runs(w, Admitted(t, NewKey(hash, name)))
      modifies this`db, this`trace
      ensures Valid()
      ensures var k' := old(db).nextKey;
              var free := t in old(db).tenants && forall l | l in old(db).keys ::
                old(db).keys[l].hash != hash && !(old(db).keys[l].tenant == t && old(db).keys[l].name == name);
              && k == (if Ok(a) && free then Some(k') else None)
              && db == (if Lands(a) && free
                        then old(db).(keys := old(db).keys[k' := KeyRow(t, hash, name, false)], nextKey := k' + 1)
                        else old(db))
      ensures k.Some? ==> (old(db).tenants[t].active <==> KeyOpens(db, k.value, t, hash))
    {
      hide Apply, Run;
      NewKeyTurn(Run(trace), w, t, hash, name, a);
      Extend(trace, Work(w, a));
      trace := trace + [Work(w, a)];
      if !Lands(a) || t !in db.tenants || HashTaken(db, hash) || NameTaken(db, t, name) {
        return None;
      }
      k := if Ok(a) then Some(db.nextKey) else None;
      db := db.(keys := db.keys[db.nextKey := KeyRow(t, hash, name, false)], nextKey := db.nextKey + 1);
    }

    /** revoke_api_key_service, for a key of the caller's own tenant; the key's hash then opens nothing. */
    method RevokeApiKey(t: nat, k: nat, a: Answer, ghost w: nat) returns (revoked: bool)
      requires Valid() && Runs(w, Admitted(t, RevokeKey(k)))
      modifies this`db, this`trace
      ensures Valid()
      ensures var own := k in old(db).keys && old(db).keys[k].tenant == t;
              && (revoked <==> Ok(a) && own)
              && db == (if Lands(a) && own
                        then old(db).(keys := old(db).keys[k := old(db).keys[k].(revoked := true)]) else old(db))
              && (Lands(a) && own ==> forall u :: !Authorised(db, u, old(db).keys[k].hash))
    {
      hide Apply, Run;
      KeyHasTenant(trace, k);
      HashesAreUnique(trace);
      RevokeKeyTurn(Run(trace), w, t, k, a);
      Extend(trace, Work(w, a));
      trace := trace + [Work(w, a)];
      if !Lands(a) || k !in db.keys || db.keys[k].tenant != t {
        return false;
      }
      db := db.(keys := db.keys[k := db.keys[k].(revoked := true)]);
      return Ok(a);
    }

    /** create_webhook_registration_service: from now on the tenant's dispatchers address it, and nobody else's. */
    method RegisterWebhook(t: nat, secret: string, a: Answer, ghost w: nat) returns (r: Option<nat>)
      requires Valid() && Runs(w, Admitted(t, Register(secret)))
      modifies this`db, this`trace
      ensures Valid()
      ensures r == if Ok(a) && t in old(db).tenants then Some(old(db).nextRegistration) else None
      ensures var r' := old(db).nextRegistration;
              if Lands(a) && t in old(db).tenants then
                && db == old(db).(registrations := old(db).registrations[r' := Registration(t, secret, true)],
                                  nextRegistration := r' + 1)
                && ActiveRegistrations(db, t) == ActiveRegistrations(old(db), t) + {r'}
                && forall u | u != t :: ActiveRegistrations(db, u) == ActiveRegistrations(old(db), u)
              else db == old(db)
    {
      hide Apply, Run;
      RegistrationsAreNumbered(trace);
      RegisterTurn(Run(trace), w, t, secret, a);
      Extend(trace, Work(w, a));
      trace := trace + [Work(w, a)];
      if !Lands(a) || t !in db.tenants {
        return None;
      }
      r := if Ok(a) then Some(db.nextRegistration) else None;
      db := db.(registrations := db.registrations[db.nextRegistration := Registration(t, secret, true)],
                nextRegistration := db.nextRegistration + 1);
    }

    /** ensure_tenant_namespace and ensure_tenant_rbac, as a kubeconfig request runs them. */
    method EnsureKubeconfigObjects(t: nat, env: nat -> Answer, begin: Answer, ghost w: nat) returns (raised: bool)
      requires Valid() && Runs(w, Admitted(t, Kubeconfig))
      modifies this`cluster, this`trace
      ensures Valid() && SameElsewhere(old(cluster), cluster, NamespaceName(t))
      ensures raised <==> !Ok(begin) || t !in db.tenants || exists k: nat :: k < ALL_OBJECTS && !Ok(env(k))
      ensures !raised ==> ObjectsLanded(env, 0, ALL_OBJECTS) == ALL_OBJECTS
      ensures var landed := if Ok(begin) && t in db.tenants then ObjectsLanded(env, 0, ALL_OBJECTS) else 0;
              Look(cluster, NamespaceName(t))
              == Completed(Look(old(cluster), NamespaceName(t)), landed, env(NETWORK_POLICY).dns)
      ensures var n, n' := Look(old(cluster), NamespaceName(t)), Look(cluster, NamespaceName(t));
              AddsIsolation(n, n', env(NETWORK_POLICY).dns)
    {
      hide Apply, Run, Completed, Look, SameElsewhere, ObjectsLanded, AddsIsolation;
      CompletedIsolates(Look(cluster, NamespaceName(t)), 0, env(NETWORK_POLICY).dns);
      CompletedIsolates(Look(cluster, NamespaceName(t)), ObjectsLanded(env, 0, ALL_OBJECTS), env(NETWORK_POLICY).dns);
      SameIsSame(cluster, NamespaceName(t));
      CompletedNone(Look(cluster, NamespaceName(t)), env(NETWORK_POLICY).dns);
      TenantIsNamed(trace, t);
      KubeconfigBegins(Run(trace), w, t, begin);
      Extend(trace, Work(w, begin));
      trace := trace + [Work(w, begin)];
      if !Ok(begin) || t !in db.tenants {
        return true;
      }
      raised := EnsureAllObjects(t, db.tenants[t].namespace, env, w);
    }

    method EnsureAllObjects(t: nat, ns: string, env: nat -> Answer, ghost w: nat) returns (raised: bool)
      requires Valid() && Runs(w, KubeconfigHandler(t, ns, 0))
      modifies this`cluster, this`trace
      ensures Valid() && SameElsewhere(old(cluster), cluster, ns)
      ensures raised <==> exists k: nat :: k < ALL_OBJECTS && !Ok(env(k))
      ensures !raised ==> ObjectsLanded(env, 0, ALL_OBJECTS) == ALL_OBJECTS
      ensures Look(cluster, ns)
           == Completed(Look(old(cluster), ns), ObjectsLanded(env, 0, ALL_OBJECTS), env(NETWORK_POLICY).dns)
    {
      hide Apply, Run, Completed, Look, SameElsewhere, ObjectsLanded;
      ghost var n, dns := Look(cluster, ns), env(NETWORK_POLICY).dns;
      CompletedNone(n, dns);
      SameIsSame(cluster, ns);
      var k := 0;
      while k < ALL_OBJECTS
        invariant k <= ALL_OBJECTS && Valid() && Runs(w, KubeconfigHandler(t, ns, k))
        invariant forall j: nat | j < k :: Ok(env(j))
        invariant ObjectsLanded(env, 0, ALL_OBJECTS) == ObjectsLanded(env, k, ALL_OBJECTS)
        invariant Look(cluster, ns) == Completed(n, k, dns) && SameElsewhere(old(cluster), cluster, ns)
      {
        LandedFrom(env, k, ALL_OBJECTS);
        ghost var before := cluster;
        raised := KubeconfigObject(t, ns, k, env(k), w, n, dns);
        SameTransitive(old(cluster), before, cluster, ns);
        if raised {
          return;
        }
        k := k + 1;
      }
      LandedAll(env, ALL_OBJECTS);
      return false;
    }

    method KubeconfigObject(t: nat, ns: string, k: nat, a: Answer, ghost w: nat,
                            ghost n: Namespace, ghost dns: Option<string>)
      returns (raised: bool)
      requires Valid() && k < ALL_OBJECTS && Runs(w, KubeconfigHandler(t, ns, k))
      requires Look(cluster, ns) == Completed(n, k, dns) && (k == NETWORK_POLICY ==> a.dns == dns)
      modifies this`cluster, this`trace
      ensures Valid() && SameElsewhere(old(cluster), cluster, ns) && raised == !Ok(a)
      ensures Look(cluster, ns) == Completed(n, if Lands(a) then k + 1 else k, dns)
      ensures !raised ==> Runs(w, KubeconfigHandler(t, ns, k + 1))
    {
      hide Apply, Run, CreateObject, ManifestFor, Completed;
      if k != NETWORK_POLICY { OnlyPolicyAsksDns(k, a.dns, dns); }
      CompletedStep(n, k, dns);
      KubeconfigTurn(Run(trace), w, t, ns, k, a);
      Extend(trace, Work(w, a));
      raised := CreateOr409(ns, k, a);
      trace := trace + [Work(w, a)];
    }
  }

  // ----- Facts about Images and tables -----

  lemma ImageIsMade(n: Namespace, t: nat, b: nat, source: Source)
    ensures var (n', reply) := CreateImage(n, ImageName(b), SpecOf(t, b, source));
            reply.Done? ==>
              && ImageName(b) in n'.images
              && var spec := n'.images[ImageName(b)].spec;
                 && spec.tag == REGISTRY + ":" + ImageTag(t, b) && spec.account == "tenant-build-sa"
                 && spec.source.gitUrl == source.gitUrl && spec.source.revision == source.revision
                 && (spec.source.subPath.Some? <==> source.subPath.Some? && source.subPath.value != "")
                 && (spec.source.subPath.Some? ==> spec.source.subPath == source.subPath)
  {
    hide ImageTag;
  }

  ghost predicate NoRowOf(db: Database, t: nat) {
    && (forall k | k in db.keys :: db.keys[k].tenant != t)
    && (forall b | b in db.builds :: db.builds[b].tenant != t)
    && (forall d | d in db.deployments :: db.deployments[d].tenant != t)
    && (forall r | r in db.registrations :: db.registrations[r].tenant != t)
    && (forall i | i in db.deliveries :: db.deliveries[i].tenant != t)
  }

  ghost predicate RowsOfAreKept(db: Database, db': Database, t: nat) {
    && (forall k | k in db.keys && db.keys[k].tenant == t :: k in db'.keys && db'.keys[k] == db.keys[k])
    && (forall b | b in db.builds && db.builds[b].tenant == t :: b in db'.builds && db'.builds[b] == db.builds[b])
    && (forall d | d in db.deployments && db.deployments[d].tenant == t ::
          d in db'.deployments && db'.deployments[d] == db.deployments[d])
    && (forall r | r in db.registrations && db.registrations[r].tenant == t ::
          r in db'.registrations && db'.registrations[r] == db.registrations[r])
    && (forall i | i in db.deliveries && db.deliveries[i].tenant == t ::
          i in db'.deliveries && db'.deliveries[i] == db.deliveries[i])
  }

  lemma HashTakenInKeys(db: Database, db': Database, hash: string)
    requires db.keys == db'.keys
    ensures HashTaken(db, hash) <==> HashTaken(db', hash)
  {}

  lemma RegistrationsAreNumbered(steps: seq<Step>)
    ensures Run(steps).db.nextRegistration !in Run(steps).db.registrations
  {
    RunOk(steps);
  }

  lemma HashesAreUnique(steps: seq<Step>)
    ensures var db := Run(steps).db;
            forall k, l | k in db.keys && l in db.keys && db.keys[k].hash == db.keys[l].hash :: k == l
  {
    RunOk(steps);
  }

  /** The next tenant key was never used, so neither was its name. */
  lemma NextTenantIsNew(steps: seq<Step>)
    ensures var s := Run(steps); var t := s.db.nextTenant;
            && t !in s.db.tenants && Look(s.cluster, NamespaceName(t)) == EMPTY
            && (forall u | u in s.db.tenants :: s.db.tenants[u].namespace != NamespaceName(t))
  {
    var s := Run(steps);
    var t := s.db.nextTenant;
    RunOk(steps);
    forall u | u in s.db.tenants
      ensures u != t && s.db.tenants[u].namespace != NamespaceName(t)
    {
      RowsSeen(s, 0, 0, u);
      NamespaceInjective(u, t);
    }
    if NamespaceName(t) in s.cluster {
      var u := Theorems.NamespaceOwnership(steps, NamespaceName(t));
      assert false;
    }
  }

  /** Whatever methods ran before, a valid platform has no workload in a namespace that is not hardened. */
  lemma PlatformIsHardened(p: Platform, ns: string)
    requires p.Valid() && HasWorkload(Look(p.cluster, ns))
    ensures Hardened(Look(p.cluster, ns))
  {
    Theorems.NoWorkloadWithoutHardening(p.trace, ns);
  }
}
