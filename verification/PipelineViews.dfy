/** What readers of pipeline objects can count on (internal/infra/k8s/deploypipeline.go). */
module PipelineViews {
  import opened Wrappers
  import opened Objects
  import opened Deployments
  import opened Protocol
  import opened ProtocolSafety
  import opened ProtocolTheorems

  /** The view of a pipeline after the first `i` actions of a run, while the pipeline exists. */
  function ViewAt(host: string, run: seq<Action>, i: nat, k: Key, labels: PipelineLabels): Option<Deployment>
    requires i <= |run|
  {
    var w := Exec(InitialWorld(host), run[..i]);
    if k in w.cells && w.cells[k].live then Some(CrToPipeline(labels, w.cells[k].spec, w.cells[k].status)) else None
  }

  function TimeAt(host: string, run: seq<Action>, i: nat): nat
    requires i <= |run|
  {
    Exec(InitialWorld(host), run[..i]).now
  }

  lemma {:induction false} TimeGrows(host: string, run: seq<Action>, i: nat)
    requires i <= |run|
    ensures TimeAt(host, run, 0) <= TimeAt(host, run, i)
  {
    hide CellApply;
    if i > 0 {
      TimeGrows(host, run, i - 1);
      assert run[..i][..i - 1] == run[..i - 1];
    }
  }

  /** The status that a reader is to see in each phase. */
  predicate Says(status: DeploymentStatus, phase: PipelinePhase) {
    && (status.Succeeded? <==> phase.Succeeded?) && (status.Failed? <==> phase.Failed?)
    && (status.InProgress? <==> phase.Building? || phase.Deploying?)
    && (status.Queued? <==> phase.Unset? || phase.Queued?)
  }

  /** The status of the pipeline after the first `i` actions. */
  function StatusAt(host: string, run: seq<Action>, i: nat, k: Key): Option<PipelineStatus>
    requires i <= |run|
  {
    var w := Exec(InitialWorld(host), run[..i]);
    if k in w.cells && w.cells[k].live then Some(w.cells[k].status) else None
  }

  lemma ViewExists(host: string, run: seq<Action>, i: nat, k: Key, labels: PipelineLabels)
    requires i <= |run|
    ensures ViewAt(host, run, i, k, labels).Some? <==> StatusAt(host, run, i, k).Some?
  {
  }

  /** A view says what the pipeline's phase is, and gives its labels, its source and its times as they are. */
  lemma ViewSaysPhase(host: string, run: seq<Action>, i: nat, k: Key, labels: PipelineLabels)
    requires i <= |run| && ViewAt(host, run, i, k, labels).Some?
    ensures StatusAt(host, run, i, k).Some?
    ensures var view, s := ViewAt(host, run, i, k, labels).value, StatusAt(host, run, i, k).value;
            var spec := Exec(InitialWorld(host), run[..i]).cells[k].spec;
            && Says(view.status, s.phase) && view.startedAt == s.startedAt && view.finishedAt == s.finishedAt
            && view.id == labels.pipelineID && view.applicationID == labels.appID && view.ownerUserID == labels.ownerUserID
            && view.repo.owner == spec.owner && view.repo.name == spec.repo && view.sha == spec.sha
            && view.prNumber == spec.prNumber
  {
  }

  /** A record brought up to date says the same, and keeps everything else of the record. */
  lemma OverlaySaysPhase(host: string, run: seq<Action>, i: nat, k: Key, labels: PipelineLabels, record: Deployment)
    requires i <= |run| && ViewAt(host, run, i, k, labels).Some?
    ensures var d, s := Overlay(record, ViewAt(host, run, i, k, labels).value), StatusAt(host, run, i, k).value;
            && Says(d.status, s.phase) && d.finishedAt == s.finishedAt
            && (s.startedAt.Some? ==> d.startedAt == s.startedAt) && (s.startedAt.None? ==> d.startedAt == record.startedAt)
            && d.id == record.id && d.applicationID == record.applicationID && d.ownerUserID == record.ownerUserID
            && d.repo == record.repo && d.sha == record.sha && d.prNumber == record.prNumber
  {
  }

  /** Every view that any run of the protocol gives satisfies the domain's rule. */
  lemma ViewIsValid(host: string, run: seq<Action>, i: nat, k: Key, labels: PipelineLabels, record: Deployment, now: nat)
    requires Legal(InitialWorld(host), run) && i <= |run| && TimeAt(host, run, i) <= now
    requires record.startedAt.Some? && record.startedAt.value <= now
    requires ViewAt(host, run, i, k, labels).Some?
    ensures var view := ViewAt(host, run, i, k, labels).value;
            && Validate(view.status, view.finishedAt).Ok?
            && Validate(Overlay(record, view).status, Overlay(record, view).finishedAt).Ok?
            && 0 <= Duration(Overlay(record, view), now) <= now
  {
    hide Legal, Exec;
    PrefixOfRun(InitialWorld(host), run, i);
    var w := Exec(InitialWorld(host), run[..i]);
    HostKept(host, run[..i]);
    assert Reachable(w);
    TimesMatchPhases(w, k);
  }

  /** A status that is the same or comes later. */
  predicate Follows(s: DeploymentStatus, t: DeploymentStatus) { s == t || s.Rank() < t.Rank() }

  /** A reader that looks again never sees an earlier status, and a terminal one stays. */
  lemma ViewsMoveForward(host: string, run: seq<Action>, i: nat, j: nat, k: Key, labels: PipelineLabels)
    requires Legal(InitialWorld(host), run) && i <= j <= |run|
    requires ViewAt(host, run, i, k, labels).Some? && ViewAt(host, run, j, k, labels).Some?
    ensures var s, t := ViewAt(host, run, i, k, labels).value, ViewAt(host, run, j, k, labels).value;
            && Follows(s.status, t.status)
            && Says(s.status, StatusAt(host, run, i, k).value.phase) && Says(t.status, StatusAt(host, run, j, k).value.phase)
            && (s.startedAt.Some? ==> t.startedAt == s.startedAt) && (s.finishedAt.Some? ==> t.finishedAt == s.finishedAt)
  {
    PhasesMoveForward(host, run, i, j, k);
  }
}
