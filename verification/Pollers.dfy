/**
  The polling loops of control_plane/app/services/build_jobs.py and deployments.py.
  A poller touches the database only after its last read, so the table it is given
  stands for the table at that moment, whatever others did to it during the loop.
 */
module Pollers {
  import opened Options
  import opened Naming
  import opened Kubernetes
  import opened ControlPlane
  import opened Invariant

  // ----- First definite report -----

  /** One status read: an API error other than 404, nothing definite yet, or a report. */
  datatype Reading<+T> = Raised | Silent | Definite(report: T)

  datatype Outcome<+T> = Died | TimedOut | Settled(report: T)

  /** What reads k..n-1 come to. */
  function FirstDefinite<T>(readings: nat -> Reading<T>, k: nat, n: nat): Outcome<T>
    requires k <= n
    decreases n - k
  {
    if k == n then TimedOut
    else match readings(k)
      case Raised => Died
      case Silent => FirstDefinite(readings, k + 1, n)
      case Definite(v) => Settled(v)
  }

  ghost predicate SilentUpTo<T>(readings: nat -> Reading<T>, k: nat) {
    forall i: nat | i < k :: readings(i).Silent?
  }

  /**
    Settled by the first definite report; dead by an error before it; timed out exactly when
    all n reads were silent.
   */
  lemma {:induction false} FirstDefiniteMeans<T(!new)>(readings: nat -> Reading<T>, k: nat, n: nat)
    requires k <= n && SilentUpTo(readings, k)
    ensures var out := FirstDefinite(readings, k, n);
            && (out.TimedOut? <==> SilentUpTo(readings, n))
            && (out.Died? <==> exists j: nat :: j < n && SilentUpTo(readings, j) && readings(j).Raised?)
            && (forall v ::
                  out == Settled(v) <==>
                    exists j: nat :: j < n && SilentUpTo(readings, j) && readings(j) == Definite(v))
    decreases n - k
  {
    if k < n && readings(k).Silent? {
      FirstDefiniteMeans(readings, k + 1, n);
    }
  }

  /** ceil(timeout / interval), the number of times the loop reads. */
  function Attempts(timeout: nat, interval: nat): nat
    requires interval > 0
  {
    (timeout + interval - 1) / interval
  }

  lemma Times(i: nat, j: nat, interval: nat)
    requires i <= j
    ensures i * interval <= j * interval
  {
    assert (j - i) * interval >= 0;
  }

  /** n = ceil(timeout / interval) is the least count that covers the timeout. */
  lemma Covers(timeout: nat, interval: nat)
    requires interval > 0
    ensures var n := Attempts(timeout, interval); timeout <= n * interval < timeout + interval
  {
    var sum := timeout + interval - 1;
    assert sum == (sum / interval) * interval + sum % interval;
  }

  lemma LoopGuard(i: nat, timeout: nat, interval: nat)
    requires interval > 0
    ensures i * interval < timeout <==> i < Attempts(timeout, interval)
  {
    hide Attempts;
    Covers(timeout, interval);
    var n := Attempts(timeout, interval);
    if i < n {
      Times(i + 1, n, interval);
      assert (i + 1) * interval == i * interval + interval;
    } else {
      Times(n, i, interval);
    }
  }

  // ----- Builds -----

  /** What a read of the cluster finds. */
  datatype Snapshot = ApiError | Found(ns: Namespace, ready: nat, conditions: seq<Condition>)

  function BuildReading(at: Snapshot, b: nat): Reading<Verdict> {
    if at.ApiError? then Raised
    else
      var v := BuildVerdict(at.ns, ImageName(b));
      if v.Unknown? then Silent else Definite(v)
  }

  function BuildReadings(observe: nat -> Snapshot, b: nat): nat -> Reading<Verdict> {
    (k: nat) => BuildReading(observe(k), b)
  }

  /** The row after a report: the image it names or its message, and the time of the write. */
  predicate Settles(row: BuildRow, row': BuildRow, v: Verdict, now: int) {
    && row'.tenant == row.tenant && row'.source == row.source && row'.startedAt == row.startedAt
    && row'.endedAt == Some(now)
    && match v
       case Ready(image) => row'.status == Succeeded && row'.imageTag == image && row'.error == row.error
       case Broken(error) => row'.status == BuildFailed && row'.error == Some(error) && row'.imageTag == row.imageTag
       case Unknown => false
  }

  lemma ResolvedSettles(row: BuildRow, v: Verdict, now: int)
    requires !v.Unknown?
    ensures Settles(row, Resolved(row, v, now), v, now)
  {}

  class BuildJobs {
    var rows: map<nat, BuildRow>
    var sent: seq<Payload>

    constructor (rows: map<nat, BuildRow>)
      ensures this.rows == rows && sent == []
    {
      this.rows, sent := rows, [];
    }

    /**
      poll_build_until_done. A row that is `building` ends up final unless a read raised
      before any report or the commit was rejected; only a report is announced, and only
      after it is stored.
     */
    method PollBuildUntilDone(b: nat, observe: nat -> Snapshot, interval: nat, timeout: nat, now: int, commit: Fault)
      returns (outcome: Outcome<Verdict>)
      requires interval > 0
      modifies this
      ensures outcome == FirstDefinite(BuildReadings(observe, b), 0, Attempts(timeout, interval))
      ensures outcome.Settled? ==> !outcome.report.Unknown?
      ensures outcome.Settled? && b in old(rows) && !commit.Rejected? ==>
                b in rows && Settles(old(rows[b]), rows[b], outcome.report, now)
      ensures rows == if b !in old(rows) || commit.Rejected? then old(rows) else match outcome
                case Died => old(rows)
                case Settled(v) => old(rows)[b := Resolved(old(rows[b]), v, now)]
                case TimedOut =>
                  if old(rows[b]).status.Building?
                  then old(rows)[b := old(rows[b]).(status := BuildFailed, error := Some(TimeoutError(timeout)),
                                                    endedAt := Some(now))]
                  else old(rows)
      ensures sent == if outcome.Settled? && b in old(rows) && commit.NoFault?
                      then old(sent) + [PayloadOfBuild(b, rows[b])] else old(sent)
      ensures b in old(rows) && old(rows[b]).status.Building? ==>
                (FinalBuild(rows[b].status) <==> !outcome.Died? && !commit.Rejected?)
      ensures b in old(rows) && old(rows[b]).status.Building? && FieldsMatch(old(rows[b])) ==> FieldsMatch(rows[b])
    {
      ghost var readings := BuildReadings(observe, b);
      ghost var n := Attempts(timeout, interval);
      var i, elapsed := 0, 0;
      LoopGuard(0, timeout, interval);
      while elapsed < timeout
        invariant elapsed == i * interval && i <= n && (elapsed < timeout <==> i < n)
        invariant FirstDefinite(readings, 0, n) == FirstDefinite(readings, i, n)
        invariant rows == old(rows) && sent == old(sent)
        decreases timeout - elapsed
      {
        elapsed := elapsed + interval;
        var at := observe(i);
        i := i + 1;
        LoopGuard(i, timeout, interval);
        if at.ApiError? {
          return Died;
        }
        var v := BuildVerdict(at.ns, ImageName(b));
        if v.Unknown? {
          continue;
        }
        if b in rows && !commit.Rejected? {
          ResolvedSettles(rows[b], v, now);
          rows := rows[b := Resolved(rows[b], v, now)];
          if commit.NoFault? { sent := sent + [PayloadOfBuild(b, rows[b])]; }
        }
        return Settled(v);
      }
      if b in rows && rows[b].status.Building? && !commit.Rejected? {
        rows := rows[b := rows[b].(status := BuildFailed, error := Some(TimeoutError(timeout)), endedAt := Some(now))];
      }
      return TimedOut;
    }
  }

  // ----- Deployments -----

  function RolloutReading(at: Snapshot): Reading<bool> {
    if at.ApiError? then Raised
    else
      var v := RolloutVerdict(at.ns, at.ready, at.conditions);
      if v.None? then Silent else Definite(v.value)
  }

  function RolloutReadings(observe: nat -> Snapshot): nat -> Reading<bool> {
    (k: nat) => RolloutReading(observe(k))
  }

  class Deployments {
    var rows: map<nat, DeployRow>
    var sent: seq<Payload>

    constructor (rows: map<nat, DeployRow>)
      ensures this.rows == rows && sent == []
    {
      this.rows, sent := rows, [];
    }

    /** poll_deployment_until_running, the same loop over rollout reports. */
    method PollDeploymentUntilRunning(d: nat, observe: nat -> Snapshot, interval: nat, timeout: nat, commit: Fault)
      returns (outcome: Outcome<bool>)
      requires interval > 0
      modifies this
      ensures outcome == FirstDefinite(RolloutReadings(observe), 0, Attempts(timeout, interval))
      ensures rows == if d !in old(rows) || commit.Rejected? then old(rows) else match outcome
                case Died => old(rows)
                case Settled(running) =>
                  old(rows)[d := old(rows[d]).(status := if running then Running else DeployFailed)]
                case TimedOut =>
                  if old(rows[d]).status.Deploying?
                  then old(rows)[d := old(rows[d]).(status := DeployFailed)] else old(rows)
      ensures sent == if outcome.Settled? && d in old(rows) && commit.NoFault?
                      then old(sent) + [PayloadOfDeployment(d, rows[d])] else old(sent)
      ensures d in old(rows) && old(rows[d]).status.Deploying? ==>
                (FinalDeploy(rows[d].status) <==> !outcome.Died? && !commit.Rejected?)
    {
      ghost var readings := RolloutReadings(observe);
      ghost var n := Attempts(timeout, interval);
      var i, elapsed := 0, 0;
      LoopGuard(0, timeout, interval);
      while elapsed < timeout
        invariant elapsed == i * interval && i <= n && (elapsed < timeout <==> i < n)
        invariant FirstDefinite(readings, 0, n) == FirstDefinite(readings, i, n)
        invariant rows == old(rows) && sent == old(sent)
        decreases timeout - elapsed
      {
        elapsed := elapsed + interval;
        var at := observe(i);
        i := i + 1;
        LoopGuard(i, timeout, interval);
        if at.ApiError? {
          return Died;
        }
        var v := RolloutVerdict(at.ns, at.ready, at.conditions);
        if v.None? {
          continue;
        }
        if d in rows && !commit.Rejected? {
          rows := rows[d := rows[d].(status := if v.value then Running else DeployFailed)];
          if commit.NoFault? { sent := sent + [PayloadOfDeployment(d, rows[d])]; }
        }
        return Settled(v.value);
      }
      if d in rows && rows[d].status.Deploying? && !commit.Rejected? {
        rows := rows[d := rows[d].(status := DeployFailed)];
      }
      return TimedOut;
    }
  }
}
