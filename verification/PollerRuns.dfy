/**
  Handlers and pollers inside whole runs: each ends after a bounded number of its own
  steps, and what a poller has read so far decides where it is and what it writes.
 */
module PollerRuns {
  import opened Options
  import opened Text
  import opened Kubernetes
  import opened ControlPlane
  import opened Invariant
  import opened StepProof
  import opened StepEffects
  import opened Pollers

  // ----- Progress -----

  /** How many turns a worker, with the poller and the dispatcher it turns into, can still take. */
  function Rank(x: Worker): nat {
    match x
    case TenantTransaction(_) => 1
    case Admitted(_, _) => MOST_TURNS
    case BuildHandler(_, _, _, _, pc) => (
      match pc
      case Ensuring(k) => if k <= HARDENING then 189 + (HARDENING - k) else 189
      case CreatingImage => 188
      case CommittingBuilding => 187
      case RefreshingBuilding => 186
      case FailingBuild(_) => 1)
    case BuildPoller(_, _, _, elapsed, phase) => (
      match phase
      case BuildPolling => 5 + Left(elapsed, BUILD_TIMEOUT, BUILD_INTERVAL)
      case BuildResolving(_) => 4
      case BuildCommitting(_) => 3
      case BuildTimingOut => 4
      case BuildCommittingTimeout => 3)
    case DeployInserting(_, _, _, _) => 47
    case DeployHandler(_, _, _, _, _, pc) => (
      match pc
      case CreatingApp => 46
      case PatchingApp => 45
      case CreatingService => 44
      case CommittingDeploying => 43
      case RefreshingDeploying => 42
      case FailingDeploy => 1)
    case DeployPoller(_, _, _, elapsed, phase) => (
      match phase
      case DeployPolling => 5 + Left(elapsed, DEPLOY_TIMEOUT, DEPLOY_INTERVAL)
      case DeployResolving(_) => 4
      case DeployCommitting(_) => 3
      case DeployTimingOut => 4
      case DeployCommittingTimeout => 3)
    case Dispatcher(_, _, _, to, _) => if to.None? then 2 else 1
    case KubeconfigHandler(_, _, k) => if k <= ALL_OBJECTS then 1 + ALL_OBJECTS - k else 1
  }

  const MOST_TURNS := 196

  const BUILD_READS := Attempts(BUILD_TIMEOUT, BUILD_INTERVAL)
  const DEPLOY_READS := Attempts(DEPLOY_TIMEOUT, DEPLOY_INTERVAL)

  /** Reads left in a polling loop. */
  function Left(elapsed: nat, timeout: nat, interval: nat): nat
    requires interval > 0
  {
    if elapsed >= timeout then 0 else Attempts(timeout - elapsed, interval)
  }

  /** Only worker w moves, and it ends, gets closer to its end, or stands still. */
  ghost predicate Turned(s: State, s': State, w: nat)
    requires w in s.workers
  {
    && s'.nextWorker == s.nextWorker
    && (forall v | v != w ::
          (v in s'.workers <==> v in s.workers) && (v in s.workers ==> s'.workers[v] == s.workers[v]))
    && (w in s'.workers ==> Rank(s'.workers[w]) < Rank(s.workers[w]) || s' == s)
  }

  lemma BuildHandlerTurns(s: State, w: nat, a: Answer)
    requires w in s.workers && s.workers[w].BuildHandler?
    ensures Turned(s, BuildHandlerStep(s, w, s.workers[w], a), w)
  {
    hide Turned, BuildHandlerStep;
    var pc := s.workers[w].buildPc;
    if pc.Ensuring? || pc.CreatingImage? { BuildCallTurns(s, w, a); } else { BuildCommitTurns(s, w, a); }
  }

  lemma BuildCallTurns(s: State, w: nat, a: Answer)
    requires w in s.workers && s.workers[w].BuildHandler?
    requires (s.workers[w].buildPc.Ensuring? || s.workers[w].buildPc.CreatingImage?)
    ensures Turned(s, BuildHandlerStep(s, w, s.workers[w], a), w)
  {
    hide Turned, BuildHandlerStep;
    if s.workers[w].buildPc.Ensuring? { EnsuringTurns(s, w, a); } else { CreatingImageTurns(s, w, a); }
  }

  lemma EnsuringTurns(s: State, w: nat, a: Answer)
    requires w in s.workers && s.workers[w].BuildHandler? && s.workers[w].buildPc.Ensuring?
    ensures Turned(s, BuildHandlerStep(s, w, s.workers[w], a), w)
  {
    hide CreateObject, CreateImage, ManifestFor, SpecOf, View;
  }

  lemma CreatingImageTurns(s: State, w: nat, a: Answer)
    requires w in s.workers && s.workers[w].BuildHandler? && s.workers[w].buildPc.CreatingImage?
    ensures Turned(s, BuildHandlerStep(s, w, s.workers[w], a), w)
  {
    hide CreateObject, CreateImage, ManifestFor, SpecOf, View;
  }

  lemma BuildCommitTurns(s: State, w: nat, a: Answer)
    requires w in s.workers && s.workers[w].BuildHandler? && !s.workers[w].buildPc.Ensuring?
    requires !s.workers[w].buildPc.CreatingImage?
    ensures Turned(s, BuildHandlerStep(s, w, s.workers[w], a), w)
  {
    hide CreateObject, CreateImage, ManifestFor, SpecOf, View;
  }

  lemma BuildPollerTurns(s: State, w: nat, a: Answer)
    requires w in s.workers && s.workers[w].BuildPoller?
    ensures Turned(s, BuildPollerStep(s, w, s.workers[w], a), w)
  {
    hide BuildVerdict, View, Resolved, PayloadOfBuild, BuildText, BuildTimedOut;
  }

  lemma DeployHandlerTurns(s: State, w: nat, a: Answer)
    requires w in s.workers && s.workers[w].DeployHandler?
    ensures Turned(s, DeployHandlerStep(s, w, s.workers[w], a), w)
  {
    hide Turned, DeployHandlerStep;
    if CallsCluster(s.workers[w].deployPc) { DeployCallTurns(s, w, a); } else { DeployCommitTurns(s, w, a); }
  }

  predicate CallsCluster(pc: DeployPc) {
    pc.CreatingApp? || pc.PatchingApp? || pc.CreatingService?
  }

  lemma DeployCallTurns(s: State, w: nat, a: Answer)
    requires w in s.workers && s.workers[w].DeployHandler? && CallsCluster(s.workers[w].deployPc)
    ensures Turned(s, DeployHandlerStep(s, w, s.workers[w], a), w)
  {
    hide CreateApp, PatchApp, CreateService, View;
  }

  lemma DeployCommitTurns(s: State, w: nat, a: Answer)
    requires w in s.workers && s.workers[w].DeployHandler? && !CallsCluster(s.workers[w].deployPc)
    ensures Turned(s, DeployHandlerStep(s, w, s.workers[w], a), w)
  {
    hide CreateApp, PatchApp, CreateService, View;
  }

  lemma DeployPollerTurns(s: State, w: nat, a: Answer)
    requires w in s.workers && s.workers[w].DeployPoller?
    ensures Turned(s, DeployPollerStep(s, w, s.workers[w], a), w)
  {
    hide RolloutVerdict, View, PayloadOfDeployment, DeployText;
  }

  lemma RequestTurns(s: State, w: nat, a: Answer)
    requires w in s.workers && s.workers[w].Admitted?
    ensures Turned(s, AdmittedStep(s, w, s.workers[w], a), w)
  {
    hide Bookkept, MayDeploy;
  }

  lemma OtherTurns(s: State, w: nat, a: Answer)
    requires w in s.workers
    ensures s.workers[w].DeployInserting? ==> Turned(s, DeployInsertingStep(s, w, s.workers[w], a), w)
    ensures s.workers[w].KubeconfigHandler? ==> Turned(s, KubeconfigStep(s, w, s.workers[w], a), w)
  {
    hide CreateObject, ManifestFor, View;
  }

  lemma DispatcherTurns(s: State, w: nat, a: Answer)
    requires w in s.workers && s.workers[w].Dispatcher?
    ensures Turned(s, DispatcherStep(s, w, s.workers[w], a), w)
  {
    hide ActiveRegistrations, DeliveryRows, Distinct;
  }

  lemma WorkTurns(s: State, w: nat, a: Answer)
    requires w in s.workers
    ensures Turned(s, WorkStep(s, w, a), w)
  {
    hide BuildHandlerStep, BuildPollerStep, DeployHandlerStep, DeployPollerStep, DispatcherStep, AdmittedStep,
      DeployInsertingStep, KubeconfigStep, Rank;
    match s.workers[w]
    case BuildHandler(_, _, _, _, _) => BuildHandlerTurns(s, w, a);
    case BuildPoller(_, _, _, _, _) => BuildPollerTurns(s, w, a);
    case DeployHandler(_, _, _, _, _, _) => DeployHandlerTurns(s, w, a);
    case DeployPoller(_, _, _, _, _) => DeployPollerTurns(s, w, a);
    case Dispatcher(_, _, _, _, _) => DispatcherTurns(s, w, a);
    case TenantTransaction(_) =>
    case Admitted(_, _) => RequestTurns(s, w, a);
    case _ => OtherTurns(s, w, a);
  }

  // ----- A worker is moved by its own steps only -----

  predicate Moves(step: Step, w: nat) {
    (step.Work? || step.Crash? || step.CommitTenant?) && step.worker == w
  }

  /** Worker numbers are handed out once. */
  lemma OthersLeaveAlone(s: State, step: Step, w: nat)
    requires w < s.nextWorker && !Moves(step, w)
    ensures var s' := Apply(s, step);
            && w < s'.nextWorker && (w in s'.workers <==> w in s.workers)
            && (w in s.workers ==> s'.workers[w] == s.workers[w])
  {
    hide WorkStep, DeleteTenantStep, KpackReportStep, Authorised, HashTaken, Rank;
    if step.Work? && step.worker in s.workers { WorkTurns(s, step.worker, step.answer); }
    if step.DeleteTenant? { DeleteLeavesWorkers(s, step.tenant); }
    if step.KpackReport? { ReportLeavesWorkers(s, step); }
  }

  lemma DeleteLeavesWorkers(s: State, t: nat)
    ensures DeleteTenantStep(s, t).workers == s.workers && DeleteTenantStep(s, t).nextWorker == s.nextWorker
  {}

  lemma ReportLeavesWorkers(s: State, step: Step)
    requires step.KpackReport?
    ensures Apply(s, step).workers == s.workers && Apply(s, step).nextWorker == s.nextWorker
  {}

  /** A step of a worker's own leaves it gone, nearer to its end, or the state as it was; nothing gets its number. */
  lemma OwnStep(s: State, step: Step, w: nat)
    requires w in s.workers && w < s.nextWorker && Moves(step, w)
    ensures var s' := Apply(s, step);
            && s'.nextWorker == s.nextWorker
            && (w in s'.workers ==> s' == s || (step.Work? && Rank(s'.workers[w]) < Rank(s.workers[w])))
  {
    hide WorkStep, Authorised, HashTaken, Rank;
    if step.Work? { WorkTurns(s, w, step.answer); }
  }

  /** The turns worker w took in a run. */
  ghost function Turns(steps: seq<Step>, w: nat): nat {
    if steps == [] then 0
    else
      var n := |steps| - 1;
      var s := Run(steps[..n]);
      Turns(steps[..n], w) + if Moves(steps[n], w) && w in s.workers && Apply(s, steps[n]) != s then 1 else 0
  }

  lemma WorkersAreNumbered(steps: seq<Step>)
    ensures forall w | w in Run(steps).workers :: w < Run(steps).nextWorker
  {
    RunOk(steps);
  }

  /** Whatever else happens, a request with all that follows from it takes at most 196 turns. */
  lemma {:induction false} EveryRequestEnds(steps: seq<Step>, w: nat)
    ensures var s := Run(steps);
            && Turns(steps, w) <= MOST_TURNS
            && (w >= s.nextWorker ==> Turns(steps, w) == 0)
            && (w in s.workers ==> Turns(steps, w) + Rank(s.workers[w]) <= MOST_TURNS)
  {
    hide Apply, Rank;
    if steps != [] {
      var n := |steps| - 1;
      var s := Run(steps[..n]);
      EveryRequestEnds(steps[..n], w);
      WorkersAreNumbered(steps[..n]);
      if w >= s.nextWorker {
        FreshIsWithinBound(s, steps[n], w);
      } else if !Moves(steps[n], w) {
        OthersLeaveAlone(s, steps[n], w);
      } else if w in s.workers {
        OwnStep(s, steps[n], w);
        RankIsPositive(s.workers[w]);
      } else {
        NotRevived(s, steps[n], w);
      }
    }
  }

  lemma RankIsPositive(x: Worker)
    ensures Rank(x) >= 1
  {}

  lemma NotRevived(s: State, step: Step, w: nat)
    requires w < s.nextWorker && w !in s.workers && Moves(step, w)
    ensures w !in Apply(s, step).workers && Apply(s, step).nextWorker == s.nextWorker
  {
    hide WorkStep, Rank;
  }

  /** A number not given out yet can only be given to a new request or transaction. */
  lemma FreshIsWithinBound(s: State, step: Step, w: nat)
    requires w >= s.nextWorker && forall v | v in s.workers :: v < s.nextWorker
    ensures var s' := Apply(s, step);
            && s.nextWorker <= s'.nextWorker
            && (w in s'.workers ==> s'.workers[w].Admitted? || s'.workers[w].TenantTransaction?)
            && (w in s'.workers ==> w < s'.nextWorker && Rank(s'.workers[w]) <= MOST_TURNS)
  {
    hide WorkStep, DeleteTenantStep, KpackReportStep, Authorised, HashTaken, Rank;
    if step.Work? && step.worker in s.workers { WorkTurns(s, step.worker, step.answer); }
    if step.DeleteTenant? { DeleteLeavesWorkers(s, step.tenant); }
    if step.KpackReport? { ReportLeavesWorkers(s, step); }
    if w in Apply(s, step).workers { NewRank(Apply(s, step).workers[w]); }
  }

  lemma NewRank(x: Worker)
    requires x.Admitted? || x.TenantTransaction?
    ensures Rank(x) <= MOST_TURNS
  {}

  // ----- What a poller has read -----

  datatype Finding = OfBuild(verdict: Verdict) | OfRollout(running: bool)

  function Tag(r: Reading<Verdict>): Reading<Finding> {
    match r
    case Raised => Raised
    case Silent => Silent
    case Definite(v) => Definite(OfBuild(v))
  }

  function TagRollout(r: Reading<bool>): Reading<Finding> {
    match r
    case Raised => Raised
    case Silent => Silent
    case Definite(v) => Definite(OfRollout(v))
  }

  /** The status read, if any, that the worker's next turn makes. */
  function ReadNow(s: State, x: Worker, a: Answer): seq<Reading<Finding>> {
    if x.BuildPoller? && x.buildPhase.BuildPolling? && x.elapsed < BUILD_TIMEOUT then
      [Tag(BuildReading(if a.fault.NoFault? then Found(View(s, x.ns), a.ready, a.conditions) else ApiError, x.build))]
    else if x.DeployPoller? && x.deployPhase.DeployPolling? && x.elapsed < DEPLOY_TIMEOUT then
      [TagRollout(RolloutReading(if a.fault.NoFault? then Found(View(s, x.ns), a.ready, a.conditions) else ApiError))]
    else []
  }

  /** Everything worker w read in a run, in order; the cluster may change between any two reads. */
  ghost function ReadsOf(steps: seq<Step>, w: nat): seq<Reading<Finding>> {
    if steps == [] then []
    else
      var n := |steps| - 1;
      var s := Run(steps[..n]);
      ReadsOf(steps[..n], w)
      + if steps[n].Work? && steps[n].worker == w && w in s.workers
        then ReadNow(s, s.workers[w], steps[n].answer) else []
  }

  predicate AllSilent(rs: seq<Reading<Finding>>) {
    forall i | 0 <= i < |rs| :: rs[i].Silent?
  }

  /** Silence, and then this finding, within the first n reads. */
  predicate EndsWith(rs: seq<Reading<Finding>>, f: Finding, n: nat) {
    0 < |rs| <= n && AllSilent(rs[..|rs| - 1]) && rs[|rs| - 1] == Definite(f)
  }

  /** Where a worker stands is determined by what it has read. */
  predicate Explains(rs: seq<Reading<Finding>>, x: Worker) {
    match x
    case BuildPoller(_, _, _, elapsed, phase) => (
      var n := BUILD_READS;
      match phase
      case BuildPolling => AllSilent(rs) && |rs| <= n && elapsed == |rs| * BUILD_INTERVAL
      case BuildResolving(v) => EndsWith(rs, OfBuild(v), n)
      case BuildCommitting(v) => EndsWith(rs, OfBuild(v), n)
      case _ => AllSilent(rs) && |rs| == n)
    case DeployPoller(_, _, _, elapsed, phase) => (
      var n := DEPLOY_READS;
      match phase
      case DeployPolling => AllSilent(rs) && |rs| <= n && elapsed == |rs| * DEPLOY_INTERVAL
      case DeployResolving(running) => EndsWith(rs, OfRollout(running), n)
      case DeployCommitting(running) => EndsWith(rs, OfRollout(running), n)
      case _ => AllSilent(rs) && |rs| == n)
    case Dispatcher(_, _, _, _, _) => true
    case _ => rs == []
  }

  lemma BuildPollerExplained(s: State, w: nat, a: Answer, rs: seq<Reading<Finding>>)
    requires w in s.workers && s.workers[w].BuildPoller? && Explains(rs, s.workers[w])
    ensures var s' := BuildPollerStep(s, w, s.workers[w], a);
            w in s'.workers ==> Explains(rs + ReadNow(s, s.workers[w], a), s'.workers[w])
  {
    hide BuildVerdict, View, Resolved, PayloadOfBuild, BuildText, BuildTimedOut;
    assert rs + [] == rs;
    assert forall r :: (rs + [r])[..|rs|] == rs;
  }

  lemma DeployPollerExplained(s: State, w: nat, a: Answer, rs: seq<Reading<Finding>>)
    requires w in s.workers && s.workers[w].DeployPoller? && Explains(rs, s.workers[w])
    ensures var s' := DeployPollerStep(s, w, s.workers[w], a);
            w in s'.workers ==> Explains(rs + ReadNow(s, s.workers[w], a), s'.workers[w])
  {
    hide RolloutVerdict, View, PayloadOfDeployment, DeployText;
    assert rs + [] == rs;
    assert forall r :: (rs + [r])[..|rs|] == rs;
  }

  /** Before it polls, a worker reads nothing; a dispatcher stays one. */
  ghost predicate StaysUnread(s: State, s': State, w: nat)
    requires w in s.workers
  {
    w in s'.workers ==> Explains([], s'.workers[w]) && (s.workers[w].Dispatcher? ==> s'.workers[w].Dispatcher?)
  }

  lemma HandlersUnread(s: State, w: nat, a: Answer)
    requires w in s.workers
    ensures s.workers[w].BuildHandler? ==> StaysUnread(s, BuildHandlerStep(s, w, s.workers[w], a), w)
    ensures s.workers[w].DeployHandler? ==> StaysUnread(s, DeployHandlerStep(s, w, s.workers[w], a), w)
  {
    hide CreateObject, CreateImage, CreateApp, PatchApp, CreateService, ManifestFor, SpecOf, View;
  }

  lemma RequestsUnread(s: State, w: nat, a: Answer)
    requires w in s.workers
    ensures s.workers[w].Admitted? ==> StaysUnread(s, AdmittedStep(s, w, s.workers[w], a), w)
    ensures s.workers[w].DeployInserting? ==> StaysUnread(s, DeployInsertingStep(s, w, s.workers[w], a), w)
    ensures s.workers[w].KubeconfigHandler? ==> StaysUnread(s, KubeconfigStep(s, w, s.workers[w], a), w)
    ensures s.workers[w].Dispatcher? ==> StaysUnread(s, DispatcherStep(s, w, s.workers[w], a), w)
  {
    hide CreateObject, ManifestFor, View, Bookkept, ActiveRegistrations, DeliveryRows, Distinct;
  }

  lemma WorkExplained(s: State, w: nat, a: Answer, rs: seq<Reading<Finding>>)
    requires w in s.workers && Explains(rs, s.workers[w])
    ensures var s' := WorkStep(s, w, a);
            w in s'.workers ==> Explains(rs + ReadNow(s, s.workers[w], a), s'.workers[w])
  {
    hide BuildHandlerStep, BuildPollerStep, DeployHandlerStep, DeployPollerStep, DispatcherStep, AdmittedStep,
         DeployInsertingStep, KubeconfigStep, View, BuildVerdict, RolloutVerdict;
    match s.workers[w]
    case BuildPoller(_, _, _, _, _) => BuildPollerExplained(s, w, a, rs);
    case DeployPoller(_, _, _, _, _) => DeployPollerExplained(s, w, a, rs);
    case _ =>
      HandlersUnread(s, w, a);
      RequestsUnread(s, w, a);
  }

  /**
    A poller in a run is the loop of its source: it goes on while all reads were silent,
    resolves by the first definite report among the first ceil(timeout / interval)
    reads, and times out only when all of them were silent.
   */
  lemma {:induction false} ReadsExplainPollers(steps: seq<Step>, w: nat)
    ensures var s := Run(steps);
            && (w >= s.nextWorker ==> ReadsOf(steps, w) == [])
            && (w in s.workers ==> Explains(ReadsOf(steps, w), s.workers[w]))
  {
    hide Apply, ReadNow;
    if steps != [] {
      var n := |steps| - 1;
      var s := Run(steps[..n]);
      ReadsExplainPollers(steps[..n], w);
      WorkersAreNumbered(steps[..n]);
      if w >= s.nextWorker {
        FreshIsWithinBound(s, steps[n], w);
      } else if !Moves(steps[n], w) {
        OthersLeaveAlone(s, steps[n], w);
      } else if w in s.workers {
        MovedIsExplained(s, steps[n], w, ReadsOf(steps[..n], w));
      } else {
        NotRevived(s, steps[n], w);
      }
    }
  }

  lemma MovedIsExplained(s: State, step: Step, w: nat, rs: seq<Reading<Finding>>)
    requires w in s.workers && w < s.nextWorker && Moves(step, w) && Explains(rs, s.workers[w])
    ensures var s' := Apply(s, step);
            && s'.nextWorker == s.nextWorker
            && (w in s'.workers ==>
                  Explains(rs + if step.Work? then ReadNow(s, s.workers[w], step.answer) else [], s'.workers[w]))
  {
    hide WorkStep, ReadNow, HashTaken, Rank, Explains;
    assert rs + [] == rs;
    OwnStep(s, step, w);
    if step.Work? { WorkExplained(s, w, step.answer, rs); }
  }

  /**
    The row is left alone, or gets what the reads say: a report, with a webhook to follow
    unless the commit raised, or the timeout failure.
   */
  ghost predicate WroteBuild(s: State, s': State, w: nat, a: Answer, rs: seq<Reading<Finding>>)
    requires w in s.workers && s.workers[w].BuildPoller?
  {
    var b, rows := s.workers[w].build, s.db.builds;
    || s'.db.builds == rows
    || (&& b in rows && rows[b].status.Building? && b in s'.db.builds && s'.db.builds == rows[b := s'.db.builds[b]]
        && (|| ReportStored(s, s', w, a, rs, s'.db.builds[b])
            || (AllSilent(rs) && |rs| == 180 && w !in s'.workers && TimesOut(rows[b], s'.db.builds[b], a.now))))
  }

  /** The row has what the first report says, and it is announced. */
  ghost predicate ReportStored(s: State, s': State, w: nat, a: Answer, rs: seq<Reading<Finding>>, row: BuildRow)
    requires w in s.workers && s.workers[w].BuildPoller? && s.workers[w].build in s.db.builds
  {
    exists v :: EndsWith(rs, OfBuild(v), 180) && Settles(s.db.builds[s.workers[w].build], row, v, a.now)
      && Announces(s, s', w, a, row)
  }

  predicate TimesOut(row: BuildRow, row': BuildRow, now: int) {
    && row' == row.(status := row'.status, error := row'.error, endedAt := row'.endedAt)
    && row'.status == BuildFailed && row'.endedAt == Some(now)
    && row'.error == Some("Build did not complete within 900s")
  }

  ghost predicate Announces(s: State, s': State, w: nat, a: Answer, row: BuildRow)
    requires w in s.workers && s.workers[w].BuildPoller?
  {
    var x := s.workers[w];
    if a.fault.NoFault?
    then w in s'.workers
      && s'.workers[w] == Dispatcher(x.tenant, "build." + BuildText(row.status),
                                     PayloadOfBuild(x.build, row), None, map[])
    else w !in s'.workers
  }

  ghost predicate WroteDeployment(s: State, s': State, w: nat, a: Answer, rs: seq<Reading<Finding>>)
    requires w in s.workers && s.workers[w].DeployPoller?
  {
    var d, rows := s.workers[w].deployment, s.db.deployments;
    || s'.db.deployments == rows
    || (d in rows && rows[d].status.Deploying?
        && ((exists running :: EndsWith(rs, OfRollout(running), 36)
               && var row := rows[d].(status := if running then Running else DeployFailed);
                  s'.db.deployments == rows[d := row] && AnnouncesRollout(s, s', w, a, row))
            || (AllSilent(rs) && |rs| == 36 && w !in s'.workers
               && s'.db.deployments == rows[d := rows[d].(status := DeployFailed)])))
  }

  ghost predicate AnnouncesRollout(s: State, s': State, w: nat, a: Answer, row: DeployRow)
    requires w in s.workers && s.workers[w].DeployPoller?
  {
    var x := s.workers[w];
    if a.fault.NoFault?
    then w in s'.workers
      && s'.workers[w] == Dispatcher(x.tenant, "deployment." + DeployText(row.status),
                                     PayloadOfDeployment(x.deployment, row), None, map[])
    else w !in s'.workers
  }

  lemma BuildStepWrites(s: State, w: nat, a: Answer, rs: seq<Reading<Finding>>)
    requires w in s.workers && s.workers[w].BuildPoller? && Explains(rs, s.workers[w])
    requires s.workers[w].build in s.db.builds ==> s.db.builds[s.workers[w].build].status.Building?
    ensures WroteBuild(s, BuildPollerStep(s, w, s.workers[w], a), w, a, rs)
  {
    hide BuildVerdict, View, AllSilent, EndsWith, WroteBuild, BuildResolveStep, BuildTimeoutStep;
    var x := s.workers[w];
    match x.buildPhase
    case BuildCommitting(v) => BuildResolveWrites(s, w, v, a, rs);
    case BuildCommittingTimeout => BuildTimeoutWrites(s, w, a, rs);
    case _ => BuildUntouched(s, BuildPollerStep(s, w, x, a), w, a, rs);
  }

  lemma BuildUntouched(s: State, s': State, w: nat, a: Answer, rs: seq<Reading<Finding>>)
    requires w in s.workers && s.workers[w].BuildPoller? && s'.db == s.db
    ensures WroteBuild(s, s', w, a, rs)
  {}

  lemma BuildResolveWrites(s: State, w: nat, v: Verdict, a: Answer, rs: seq<Reading<Finding>>)
    requires w in s.workers && s.workers[w].BuildPoller? && EndsWith(rs, OfBuild(v), BUILD_READS)
    requires s.workers[w].build in s.db.builds ==> s.db.builds[s.workers[w].build].status.Building?
    ensures WroteBuild(s, BuildResolveStep(s, w, s.workers[w], v, a), w, a, rs)
  {
    hide AllSilent, EndsWith, Resolved, PayloadOfBuild, BuildText, Settles;
    var b := s.workers[w].build;
    if Lands(a) && b in s.db.builds && !v.Unknown? {
      ResolvedSettles(s.db.builds[b], v, a.now);
      var s' := BuildResolveStep(s, w, s.workers[w], v, a);
      assert Announces(s, s', w, a, Resolved(s.db.builds[b], v, a.now));
      assert ReportStored(s, s', w, a, rs, Resolved(s.db.builds[b], v, a.now));
    }
  }

  lemma BuildTimeoutWrites(s: State, w: nat, a: Answer, rs: seq<Reading<Finding>>)
    requires w in s.workers && s.workers[w].BuildPoller? && AllSilent(rs) && |rs| == BUILD_READS
    requires s.workers[w].build in s.db.builds ==> s.db.builds[s.workers[w].build].status.Building?
    ensures WroteBuild(s, BuildTimeoutStep(s, w, s.workers[w], a), w, a, rs)
  {
    hide AllSilent, EndsWith, TimeoutError, Announces, ReportStored;
    TimeoutText();
  }

  lemma TimeoutText()
    ensures TimeoutError(BUILD_TIMEOUT) == "Build did not complete within 900s"
  {
    assert Decimal(900) == "900";
  }

  lemma DeployStepWrites(s: State, w: nat, a: Answer, rs: seq<Reading<Finding>>)
    requires w in s.workers && s.workers[w].DeployPoller? && Explains(rs, s.workers[w])
    requires s.workers[w].deployment in s.db.deployments ==> s.db.deployments[s.workers[w].deployment].status.Deploying?
    ensures WroteDeployment(s, DeployPollerStep(s, w, s.workers[w], a), w, a, rs)
  {
    hide RolloutVerdict, View, AllSilent, EndsWith, WroteDeployment, DeployResolveStep, DeployTimeoutStep;
    var x := s.workers[w];
    match x.deployPhase
    case DeployCommitting(running) => DeployResolveWrites(s, w, running, a, rs);
    case DeployCommittingTimeout => DeployTimeoutWrites(s, w, a, rs);
    case _ => DeploymentUntouched(s, DeployPollerStep(s, w, x, a), w, a, rs);
  }

  lemma DeploymentUntouched(s: State, s': State, w: nat, a: Answer, rs: seq<Reading<Finding>>)
    requires w in s.workers && s.workers[w].DeployPoller? && s'.db == s.db
    ensures WroteDeployment(s, s', w, a, rs)
  {}

  lemma DeployResolveWrites(s: State, w: nat, running: bool, a: Answer, rs: seq<Reading<Finding>>)
    requires w in s.workers && s.workers[w].DeployPoller? && EndsWith(rs, OfRollout(running), DEPLOY_READS)
    requires s.workers[w].deployment in s.db.deployments ==> s.db.deployments[s.workers[w].deployment].status.Deploying?
    ensures WroteDeployment(s, DeployResolveStep(s, w, s.workers[w], running, a), w, a, rs)
  {
    hide AllSilent, EndsWith, PayloadOfDeployment, DeployText;
  }

  lemma DeployTimeoutWrites(s: State, w: nat, a: Answer, rs: seq<Reading<Finding>>)
    requires w in s.workers && s.workers[w].DeployPoller? && AllSilent(rs) && |rs| == DEPLOY_READS
    requires s.workers[w].deployment in s.db.deployments ==> s.db.deployments[s.workers[w].deployment].status.Deploying?
    ensures WroteDeployment(s, DeployTimeoutStep(s, w, s.workers[w], a), w, a, rs)
  {
    hide AllSilent, EndsWith, AnnouncesRollout;
  }

  /**
    With no fault and its row in place a poller only ever stops by writing: it commits what
    it resolved, or the timeout.
   */
  ghost predicate BuildPollerGoesOn(s: State, s': State, w: nat)
    requires w in s.workers && s.workers[w].BuildPoller?
  {
    var x := s.workers[w];
    x.build in s.db.builds ==>
      && (s'.db.builds != s.db.builds <==> x.buildPhase.BuildCommitting? || x.buildPhase.BuildCommittingTimeout?)
      && (w !in s'.workers <==> x.buildPhase.BuildCommittingTimeout?)
  }

  ghost predicate DeployPollerGoesOn(s: State, s': State, w: nat)
    requires w in s.workers && s.workers[w].DeployPoller?
  {
    var x := s.workers[w];
    x.deployment in s.db.deployments ==>
      && (s'.db.deployments != s.db.deployments <==>
            x.deployPhase.DeployCommitting? || x.deployPhase.DeployCommittingTimeout?)
      && (w !in s'.workers <==> x.deployPhase.DeployCommittingTimeout?)
  }

  lemma BuildStepGoesOn(s: State, w: nat, a: Answer)
    requires w in s.workers && s.workers[w].BuildPoller? && a.fault.NoFault? && BuildPollerOk(CoreOf(s), s.workers[w])
    ensures BuildPollerGoesOn(s, BuildPollerStep(s, w, s.workers[w], a), w)
  {
    hide BuildVerdict, View, PayloadOfBuild, Reported, Undelivered, BuildText;
    var x := s.workers[w];
    var s' := BuildPollerStep(s, w, x, a);
    if x.build in s.db.builds && (x.buildPhase.BuildCommitting? || x.buildPhase.BuildCommittingTimeout?) {
      assert s'.db.builds[x.build].status != Building;
    }
  }

  lemma DeployStepGoesOn(s: State, w: nat, a: Answer)
    requires w in s.workers && s.workers[w].DeployPoller? && a.fault.NoFault?
    requires s.workers[w].deployment in s.db.deployments ==> s.db.deployments[s.workers[w].deployment].status.Deploying?
    ensures DeployPollerGoesOn(s, DeployPollerStep(s, w, s.workers[w], a), w)
  {
    hide RolloutVerdict, View, PayloadOfDeployment, DeployText;
    var x := s.workers[w];
    var s' := DeployPollerStep(s, w, x, a);
    if x.deployment in s.db.deployments && (x.deployPhase.DeployCommitting? || x.deployPhase.DeployCommittingTimeout?) {
      assert s'.db.deployments[x.deployment].status != Deploying;
    }
  }

  /**
    A poller writes to its row at most once, while the row is still waiting, and then only
    what it has read; and unless a call raises or the row is gone, it does write.
   */
  lemma PollersWriteWhatTheyRead(steps: seq<Step>, w: nat, a: Answer)
    requires w in Run(steps).workers
    ensures var s, s' := Run(steps), Apply(Run(steps), Work(w, a));
            && (s.workers[w].BuildPoller? ==>
                  WroteBuild(s, s', w, a, ReadsOf(steps, w)) && (a.fault.NoFault? ==> BuildPollerGoesOn(s, s', w)))
            && (s.workers[w].DeployPoller? ==>
                  && WroteDeployment(s, s', w, a, ReadsOf(steps, w))
                  && (a.fault.NoFault? ==> DeployPollerGoesOn(s, s', w)))
  {
    hide Inv, Rank, Explains, WroteBuild, WroteDeployment, BuildPollerGoesOn, DeployPollerGoesOn, BuildPollerOk,
         BuildPollerStep, DeployPollerStep;
    var s := Run(steps);
    ReadsExplainPollers(steps, w);
    RunOk(steps);
    WorkerSeen(s, w);
    if s.workers[w].BuildPoller? {
      BuildRowOpen(s, w);
      BuildStepWrites(s, w, a, ReadsOf(steps, w));
      if a.fault.NoFault? { BuildStepGoesOn(s, w, a); }
    }
    if s.workers[w].DeployPoller? {
      DeployRowOpen(s, w);
      DeployStepWrites(s, w, a, ReadsOf(steps, w));
      if a.fault.NoFault? { DeployStepGoesOn(s, w, a); }
    }
  }
}
