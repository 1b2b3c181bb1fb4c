/**
 The goroutines behind `WatchDeployment` (internal/usecase/deployment.go), each proved to take only
 steps that the stream's protocol allows, whatever the others do between its own steps.
 */
module Watcher {
  import opened Wrappers
  import opened Deployments
  import opened PipelineViews
  import opened WatchStream
  import opened WatchTheorems
  import Protocol

  datatype Goroutine = Loop | Producer

  predicate Foreign(me: Goroutine, a: Act) { a.Receive? || a.Cancel? || (ByLogOrConsumer(a) <==> me.Loop?) }

  predicate AllForeign(me: Goroutine, acts: seq<Act>) { forall i :: 0 <= i < |acts| ==> Foreign(me, acts[i]) }

  /** What the others leave to a goroutine: its own state, and the order of what was sent. */
  predicate Rely(me: Goroutine, s: Stream, t: Stream) {
    && s.sent <= t.sent && (s.cancelled ==> t.cancelled)
    && (me.Loop? ==> t.loop == s.loop && t.last == s.last && t.at == s.at && (s.log.Idle? <==> t.log.Idle?))
    && (me.Producer? && !s.log.Idle? ==> t.log == s.log)
  }

  lemma ForeignAct(me: Goroutine, u: Setup, s: Stream, a: Act)
    requires CanStep(u, s, a) && Foreign(me, a)
    ensures Rely(me, s, Step(u, s, a))
  {
    hide ViewOf, ClockAt;
  }

  lemma RelyTransitive(me: Goroutine, s: Stream, t: Stream, v: Stream)
    requires Rely(me, s, t) && Rely(me, t, v)
    ensures Rely(me, s, v)
  {
  }

  lemma {:induction false} ForeignSchedule(me: Goroutine, u: Setup, s: Stream, acts: seq<Act>)
    requires SetupOk(u) && Inv(u, s) && Schedule(u, s, acts) && AllForeign(me, acts)
    ensures Inv(u, After(u, s, acts)) && Rely(me, s, After(u, s, acts))
  {
    if acts != [] {
      hide SetupOk, Inv, Step, CanStep, Foreign, Rely;
      var before := acts[..|acts| - 1];
      ForeignSchedule(me, u, s, before);
      InvStep(u, After(u, s, before), Protocol.Last(acts));
      ForeignAct(me, u, After(u, s, before), Protocol.Last(acts));
      RelyTransitive(me, s, After(u, s, before), After(u, s, acts));
    }
  }

  lemma RoomByReceiving(u: Setup, s: Stream)
    requires Shape(s) && !HasRoom(s)
    ensures Schedule(u, s, [Receive]) && HasRoom(After(u, s, [Receive]))
  {
    OneAct(u, s, Receive);
  }

  /** The record with the pipeline's status at this point of its run and with its times. */
  predicate Reports(u: Setup, place: nat, d: Deployment) {
    && place <= |u.run| && StatusAt(u.host, u.run, place, u.k).Some?
    && var s := StatusAt(u.host, u.run, place, u.k).value;
      && Says(d.status, s.phase) && d.finishedAt == s.finishedAt
      && (s.startedAt.Some? ==> d.startedAt == s.startedAt) && (s.startedAt.None? ==> d.startedAt == u.record.startedAt)
      && d.id == u.record.id && d.repo == u.record.repo && d.sha == u.record.sha
  }

  /** In the end the pipeline exists and is finished. */
  predicate EndsFinished(u: Setup) {
    var last := StatusAt(u.host, u.run, |u.run|, u.k);
    last.Some? && last.value.phase.Terminal()
  }

  class DeploymentWatch {
    const u: Setup
    /** Whether every read succeeds, and after a while sees the newest state. */
    const calm: bool
    /** How many more reads of a calm period may see an older state. */
    var lag: nat
    var s: Stream
    ghost var acts: seq<Act>
    /** The status that the loop read last. */
    ghost var seen: Option<DeploymentStatus>

    ghost predicate Valid()
      reads this
    {
      SetupOk(u) && Schedule(u, NEW_STREAM, acts) && s == After(u, NEW_STREAM, acts) && Inv(u, s)
    }

    constructor (u: Setup, calm: bool, lag: nat)
      requires SetupOk(u)
      ensures Valid() && this.u == u && this.calm == calm && this.lag == lag
      ensures s == NEW_STREAM && acts == [] && seen == None
    {
      this.u := u;
      this.calm := calm;
      this.lag := lag;
      s := NEW_STREAM;
      acts := [];
      seen := None;
      new;
      NewStreamInv(u);
    }

    method Commit(a: Act)
      requires Valid() && CanStep(u, s, a)
      modifies this`s, this`acts
      ensures Valid() && s == Step(u, old(s), a) && acts == old(acts) + [a]
    {
      hide SetupOk, Shape, Informed, Sound, Logged, CanStep, Step;
      InvStep(u, s, a);
      OneAct(u, s, a);
      ConcatSchedules(u, NEW_STREAM, acts, [a]);
      acts := acts + [a];
      s := Step(u, s, a);
    }

    method Run(me: Goroutine, steps: seq<Act>)
      requires Valid() && Schedule(u, s, steps) && AllForeign(me, steps)
      modifies this`s, this`acts
      ensures Valid() && s == After(u, old(s), steps) && acts == old(acts) + steps && Rely(me, old(s), s)
    {
      hide SetupOk, Shape, Informed, Sound, Logged, CanStep, Step, Rely;
      ForeignSchedule(me, u, s, steps);
      ConcatSchedules(u, NEW_STREAM, acts, steps);
      acts := acts + steps;
      s := After(u, s, steps);
    }

    /** The other goroutine, the consumer and the caller take any steps they can. */
    method Others(me: Goroutine)
      requires Valid()
      modifies this`s, this`acts
      ensures Valid() && old(acts) <= acts && Rely(me, old(s), s)
    {
      hide SetupOk, Shape, Informed, Sound, Logged, CanStep, Step, Rely;
      var steps: seq<Act> :| Schedule(u, s, steps) && AllForeign(me, steps);
      Run(me, steps);
    }

    /** A blocked send: it goes on once there is room. */
    method AwaitRoom(me: Goroutine)
      requires Valid()
      modifies this`s, this`acts
      ensures Valid() && old(acts) <= acts && Rely(me, old(s), s) && HasRoom(s)
    {
      hide SetupOk, Shape, Informed, Sound, Logged, CanStep, Step, HasRoom;
      if !HasRoom(s) {
        RoomByReceiving(u, s);
        var steps: seq<Act> :| Schedule(u, s, steps) && AllForeign(me, steps) && HasRoom(After(u, s, steps));
        Run(me, steps);
      }
    }

    // ---------- Reading ----------

    method GetPipeline() returns (r: Result<Option<Deployment>>, place: nat, now: nat)
      requires Valid()
      modifies this`s, this`acts, this`lag
      ensures Valid() && old(acts) <= acts && Rely(Loop, old(s), s)
      ensures s.at <= place && ClockAt(u, place, now)
      ensures r.Ok? ==> r.value == ViewAt(u.host, u.run, place, u.k, u.labels)
      ensures calm ==> r.Ok? && (if old(lag) == 0 then lag == 0 && place == |u.run| else lag == old(lag) - 1)
    {
      hide Shape, Sound, Logged, CanStep, Step, ViewAt, TimeAt, Protocol.Legal;
      Others(Loop);
      place, now := *, *;
      if place < s.at || place > |u.run| { place := s.at; }
      if lag == 0 && calm { place := |u.run|; }
      if lag > 0 { lag := lag - 1; }
      if now < u.record.startedAt.value { now := u.record.startedAt.value; }
      if now < TimeAt(u.host, u.run, place) { now := TimeAt(u.host, u.run, place); }
      var fails: bool := *;
      if fails && !calm { return Err("list deployment pipelines"), place, now; }
      r := Ok(ViewAt(u.host, u.run, place, u.k, u.labels));
    }

    method GetDeployment() returns (r: Result<Deployment>)
      ensures r.Ok? ==> r.value == u.record
      ensures calm ==> r.Ok?
    {
      var fails: bool := *;
      if fails && !calm { return Err("deployment not found"); }
      r := Ok(u.record);
    }

    /** The deployment's record, brought up to date from the pipeline object. */
    method GetDeploymentTemporarily() returns (r: Result<Option<Deployment>>, place: nat, now: nat)
      requires Valid()
      modifies this
      ensures Valid() && old(acts) <= acts && Rely(Loop, old(s), s)
      ensures s.at <= place && ClockAt(u, place, now)
      ensures r.Ok? && r.value.Some? ==> r.value == ViewOf(u, place) && seen == Some(r.value.value.status)
      ensures r.Ok? && r.value.Some? ==> Reports(u, place, r.value.value)
      ensures !(r.Ok? && r.value.Some?) ==> seen == old(seen)
      ensures calm ==> r.Ok? && (if old(lag) == 0 then lag == 0 && place == |u.run| else lag == old(lag) - 1)
      ensures calm && place <= |u.run| ==> (r.value.Some? <==> StatusAt(u.host, u.run, place, u.k).Some?)
      ensures calm && old(lag) == 0 && EndsFinished(u) ==> r.value.Some? && r.value.value.status.Terminal()
    {
      hide SetupOk, Shape, Informed, Sound, Logged, ViewAt, TimeAt;
      var pipeline;
      pipeline, place, now := GetPipeline();
      if pipeline.Err? { return Err(pipeline.message), place, now; }
      ViewExists(u.host, u.run, place, u.k, u.labels);
      if pipeline.value.None? { return Ok(None), place, now; }
      var found := GetDeployment();
      if found.Err? { return Err(found.message), place, now; }
      var deploy, view := found.value, pipeline.value.value;
      deploy := deploy.(status := view.status);
      deploy := deploy.(finishedAt := view.finishedAt);
      if view.startedAt.Some? { deploy := deploy.(startedAt := view.startedAt); }
      seen := Some(deploy.status);
      ViewSaysPhase(u.host, u.run, place, u.k, u.labels);
      OverlaySaysPhase(u.host, u.run, place, u.k, u.labels, u.record);
      r := Ok(Some(deploy));
    }

    // ---------- Sending ----------

    /** `ch <- DeploymentStatusChangedEvent{...}`, which does not look at the context. */
    method SendStatus(d: Deployment, read: Act, now: nat)
      requires Valid() && CanStep(u, s, read)
      requires || (read == ReadRecord(now) && d == u.record)
               || (read.ReadPipeline? && read.now == now && Some(d) == ViewOf(u, read.place))
      modifies this`s, this`acts
      ensures Valid() && old(acts) <= acts && s.loop.Waiting? && s.last == Some(d.status)
      ensures s.log.Idle? <==> old(s).log.Idle?
      ensures |old(s).sent| < |s.sent| && Protocol.Last(s.sent) == Message(StatusLoop, EventOf(d, now))
    {
      hide SetupOk, Shape, Informed, Sound, Logged, ViewOf, ClockAt;
      Commit(read);
      AwaitRoom(Loop);
      Commit(Act.SendStatus);
    }

    /** `select`: the chunk is sent or the context is done. */
    method SendErrorChunk(text: string)
      requires Valid() && Polling(s)
      modifies this`s, this`acts
      ensures Valid() && old(acts) <= acts && Rely(Loop, old(s), s)
      ensures s.cancelled || (s.sent != [] && Protocol.Last(s.sent) == Message(StatusLoop, LogChunk("[status error] " + text)))
    {
      hide SetupOk, Shape, Informed, Sound, Logged, ViewOf, ClockAt;
      Others(Loop);
      var done: bool := *;
      if s.cancelled && done { return; }
      AwaitRoom(Loop);
      Commit(SendError(text));
    }

    // ---------- The goroutine that starts both producers ----------

    /** The first status: the pipeline's, or the record's when the pipeline cannot be read. */
    method Announce() returns (lastStatus: DeploymentStatus)
      requires Valid() && s.loop.Fresh? && s.log.Idle?
      modifies this
      ensures Valid() && old(acts) <= acts
      ensures s.loop.Waiting? && s.log.Idle? && s.last == Some(lastStatus)
      ensures seen == old(seen) || seen == s.last
      ensures calm ==> lag == (if old(lag) == 0 then 0 else old(lag) - 1)
      ensures calm && old(lag) == 0 && EndsFinished(u) ==> lastStatus.Terminal()
    {
      hide SetupOk, Shape, Informed, Sound, Logged, ViewOf, ClockAt, StatusAt, Reports, EndsFinished;
      var deploy := u.record;
      var current, place, now := GetDeploymentTemporarily();
      var read := ReadRecord(now);
      if current.Ok? && current.value.Some? {
        deploy := current.value.value;
        read := ReadPipeline(place, now);
      }
      ClockFromStart(u, place, now);
      lastStatus := deploy.status;
      SendStatus(deploy, read, now);
    }

    /** The goroutine of `WatchDeployment`, for at most `ticks` ticks of its clock. */
    method Watch(ticks: nat) returns (finished: bool)
      requires Valid() && s.loop.Fresh? && s.log.Idle? && seen.None?
      modifies this
      ensures Valid() && old(acts) <= acts
      ensures if finished then s.closes == 1 else Polling(s)
      ensures seen.Some? ==> seen == s.last
      ensures calm && EndsFinished(u) && ticks >= old(lag) ==> finished
    {
      hide SetupOk, Informed, Sound, Logged, ViewOf, ClockAt, StatusAt, Reports, EndsFinished;
      var lastStatus := Announce();
      Commit(Spawn);
      if lastStatus.Terminal() {
        Commit(Leave);
      } else {
        var returned := WatchDeploymentStatusLoop(lastStatus, ticks);
        if !returned { return false; }
      }
      AwaitLog();
      Commit(Close);
      return true;
    }

    /** `wg.Wait()`. */
    method AwaitLog()
      requires Valid() && s.loop.Left?
      modifies this`s, this`acts
      ensures Valid() && old(acts) <= acts && Rely(Loop, old(s), s) && s.log.Stopped?
    {
      hide SetupOk, Informed, Sound, Logged, CanStep, Step;
      ghost var possible := LogCanStop(u, s);
      assert AllForeign(Loop, possible);
      var steps: seq<Act> :| Schedule(u, s, steps) && AllForeign(Loop, steps) && After(u, s, steps).log.Stopped?;
      Run(Loop, steps);
    }

    /** The polling loop; it returns on a terminal status or when the context is done. */
    method WatchDeploymentStatusLoop(initial: DeploymentStatus, ticks: nat) returns (returned: bool)
      requires Valid() && Polling(s) && s.last == Some(initial) && (seen.Some? ==> seen == s.last)
      modifies this
      ensures Valid() && old(acts) <= acts && (seen.Some? ==> seen == s.last)
      ensures if returned then s.loop.Left? else Polling(s)
      ensures calm && EndsFinished(u) && ticks > old(lag) ==> returned
    {
      hide SetupOk, Shape, Informed, Sound, Logged, ViewOf, ClockAt, StatusAt, Reports, EndsFinished;
      var lastStatus := initial;
      for tick := 0 to ticks
        invariant Valid() && old(acts) <= acts && Polling(s) && s.last == Some(lastStatus)
        invariant seen.Some? ==> seen == s.last
        invariant calm && EndsFinished(u) ==> lag + tick == old(lag)
      {
        Others(Loop);
        var done: bool := *;
        if s.cancelled && done {
          Commit(Leave);
          return true;
        }
        var current, place, now := GetDeploymentTemporarily();
        if current.Err? {
          SendErrorChunk(current.message);
          continue;
        }
        if current.value.None? { continue; }
        if current.value.value.status != lastStatus {
          lastStatus := current.value.value.status;
          SendStatus(current.value.value, ReadPipeline(place, now), now);
        }
        if lastStatus.Terminal() {
          Commit(Leave);
          return true;
        }
      }
      return false;
    }

    // ---------- The log producer ----------

    /** The body of `watchBuildLogStream`. */
    method WatchBuildLogStream()
      requires Valid() && s.log == Scanning(0)
      modifies this`s, this`acts
      ensures Valid() && old(acts) <= acts && s.log.Stopped?
      ensures !s.cancelled ==> FromLog(s.sent) == WholeLog(u)
    {
      hide SetupOk, Shape, Informed, Sound, ViewOf, ClockAt, FromLog;
      Others(Producer);
      var done: bool := *;
      if !u.opens || (s.cancelled && done) {
        SendFailureChunk();
        return;
      }
      var scanned, interrupted := 0, false;
      while scanned < |u.lines| && !interrupted
        invariant Valid() && old(acts) <= acts && s.log == Scanning(scanned) && scanned <= |u.lines|
        invariant interrupted ==> s.cancelled
        decreases |u.lines| - scanned, !interrupted
      {
        Others(Producer);
        var done: bool := *;
        if s.cancelled && done {
          interrupted := true;
        } else {
          SendLineChunk();
          scanned := scanned + 1;
        }
      }
      var otherError: bool := *;
      if (u.broken && !interrupted) || (interrupted && otherError) {
        SendFailureChunk();
      } else {
        Commit(StopLog);
      }
    }

    method SendLineChunk()
      requires Valid() && LineDue(u, s)
      modifies this`s, this`acts
      ensures Valid() && old(acts) <= acts && s.log == Scanning(old(s).log.next + 1)
    {
      hide SetupOk, Shape, Informed, Sound, Logged, ViewOf, ClockAt;
      Others(Producer);
      var done: bool := *;
      if s.cancelled && done {
        Commit(SkipLine);
        return;
      }
      AwaitRoom(Producer);
      Commit(SendLine);
    }

    method SendFailureChunk()
      requires Valid() && FailureDue(u, s)
      modifies this`s, this`acts
      ensures Valid() && old(acts) <= acts && s.log.Stopped?
    {
      hide SetupOk, Shape, Informed, Sound, Logged, ViewOf, ClockAt;
      Others(Producer);
      var done: bool := *;
      if s.cancelled && done {
        Commit(StopLog);
        return;
      }
      AwaitRoom(Producer);
      Commit(SendFailure);
    }
  }

  /** The clock and the record were there from the start. */
  lemma ClockFromStart(u: Setup, place: nat, now: nat)
    requires SetupOk(u) && ClockAt(u, place, now)
    ensures ClockAt(u, 0, now)
  {
    TimeGrows(u.host, u.run, place);
  }
}
