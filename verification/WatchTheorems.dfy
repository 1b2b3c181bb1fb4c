/** The guarantees of the event stream, for every schedule of its goroutines and its consumer. */
module WatchTheorems {
  import opened Wrappers
  import opened Objects
  import opened Deployments
  import opened WatchStream
  import opened PipelineViews
  import Progress
  import Protocol
  import ProtocolInvariant
  import ProtocolSafety
  import ProtocolTheorems

  predicate Sends(a: Act) { a.SendStatus? || a.SendError? || a.SendLine? || a.SendFailure? }

  /** Nobody sends on the channel or closes it once it is closed. */
  lemma NothingAfterClose(u: Setup, acts: seq<Act>, a: Act)
    requires SetupOk(u) && Schedule(u, NEW_STREAM, acts) && CanStep(u, After(u, NEW_STREAM, acts), a)
    requires Sends(a) || a.Close?
    ensures After(u, NEW_STREAM, acts).closes == 0
  {
    hide SetupOk, Schedule, After, ViewOf, ClockAt, Informed, Sound, Logged;
    StreamInv(u, acts);
  }

  /** The channel is closed at most once, and only when both producers have stopped. */
  lemma ClosedOnce(u: Setup, acts: seq<Act>)
    requires SetupOk(u) && Schedule(u, NEW_STREAM, acts)
    ensures var s := After(u, NEW_STREAM, acts);
            s.closes <= 1 && (s.closes == 1 ==> s.loop.Closed? && s.log.Stopped?)
  {
    hide SetupOk, Schedule, After, Informed, Sound, Logged;
    StreamInv(u, acts);
  }

  lemma RisingIsShort(statuses: seq<DeploymentStatus>)
    requires Rising(statuses)
    ensures |statuses| <= 3
    ensures forall i :: 0 <= i < |statuses| - 1 ==> !statuses[i].Terminal()
  {
    if |statuses| > 3 {
      assert statuses[0].Rank() < statuses[1].Rank() < statuses[2].Rank() < statuses[3].Rank();
    }
    forall i | 0 <= i < |statuses| - 1
      ensures !statuses[i].Terminal()
    {
      assert statuses[i].Rank() < statuses[i + 1].Rank();
    }
  }

  /** A status comes first; statuses rise, so there are at most three and none follows a terminal one. */
  lemma StatusesRise(u: Setup, acts: seq<Act>)
    requires SetupOk(u) && Schedule(u, NEW_STREAM, acts)
    ensures var sent := After(u, NEW_STREAM, acts).sent;
            && (sent != [] ==> sent[0].event.StatusChanged?)
            && Rising(Statuses(sent)) && |Statuses(sent)| <= 3
            && (forall i :: 0 <= i < |Statuses(sent)| - 1 ==> !Statuses(sent)[i].Terminal())
  {
    hide SetupOk, Schedule, After, Sound, Logged, ViewOf;
    StreamInv(u, acts);
    var s := After(u, NEW_STREAM, acts);
    assert Rising(Statuses(s.sent)) by {
      forall i, j | 0 <= i < j < |Statuses(s.sent)|
        ensures Statuses(s.sent)[i].Rank() < Statuses(s.sent)[j].Rank()
      {
        assert Announced(s)[i] == Statuses(s.sent)[i] && Announced(s)[j] == Statuses(s.sent)[j];
      }
    }
    RisingIsShort(Statuses(s.sent));
  }

  /** Every status event has a finish time exactly when its status is terminal, and a true duration. */
  lemma StatusEventsAreValid(u: Setup, acts: seq<Act>, m: Message)
    requires SetupOk(u) && Schedule(u, NEW_STREAM, acts) && m in After(u, NEW_STREAM, acts).sent
    requires m.event.StatusChanged?
    ensures (m.event.finishedAt.Some? <==> m.event.status.Terminal()) && m.event.elapsed >= 0
  {
    hide SetupOk, Schedule, After, Shape, Informed, Logged;
    StreamInv(u, acts);
    assert GoodEvent(m.event);
  }

  /** A stream that nobody cancels ends with a terminal status, and has carried the whole log in order. */
  lemma CompleteStream(u: Setup, acts: seq<Act>)
    requires SetupOk(u) && Schedule(u, NEW_STREAM, acts) && !After(u, NEW_STREAM, acts).cancelled
    ensures var s := After(u, NEW_STREAM, acts);
            var failure := ["failed to retrieve logs"];
            var whole := if !u.opens then failure else if u.broken then u.lines + failure else u.lines;
            && FromLog(s.sent) <= whole
            && (s.closes > 0 ==>
                  && FromLog(s.sent) == whole
                  && Statuses(s.sent) != [] && Protocol.Last(Statuses(s.sent)).Terminal())
  {
    hide SetupOk, Schedule, After, Sound, ViewOf;
    StreamInv(u, acts);
    var s := After(u, NEW_STREAM, acts);
    assert Statuses(s.sent) + [] == Statuses(s.sent);
    assert u.lines + [] == u.lines;
  }

  // ---------- What the events say ----------

  /** The event says what the pipeline was at this point of its run, read when the clock showed `now`. */
  ghost predicate Tells(u: Setup, e: Event, place: nat, now: nat) {
    && e.StatusChanged? && place <= |u.run| && StatusAt(u.host, u.run, place, u.k).Some? && ClockAt(u, place, now)
    && var s := StatusAt(u.host, u.run, place, u.k).value;
      && Says(e.status, s.phase) && e.finishedAt == s.finishedAt
      && e.elapsed == (if s.finishedAt.Some? then s.finishedAt.value else now)
                      - (if s.startedAt.Some? then s.startedAt.value else u.record.startedAt.value)
  }

  /** The event says what the record was, before any pipeline was read. */
  ghost predicate TellsRecord(u: Setup, e: Event, now: nat) {
    && e.StatusChanged? && ClockAt(u, 0, now)
    && e.status.Queued? && e.finishedAt.None? && e.elapsed == now - u.record.startedAt.value
  }

  ghost predicate Truth(u: Setup, e: Event) {
    (exists place: nat, now: nat :: Tells(u, e, place, now)) || (exists now: nat :: TellsRecord(u, e, now))
  }

  ghost predicate Truthful(u: Setup, s: Stream) {
    && (forall m :: m in s.sent && m.event.StatusChanged? ==> Truth(u, m.event))
    && (s.loop.Sending? ==> Truth(u, s.loop.event))
  }

  lemma ReadIsTruth(u: Setup, place: nat, now: nat)
    requires SetupOk(u) && ClockAt(u, place, now) && ViewOf(u, place).Some?
    ensures Truth(u, EventOf(ViewOf(u, place).value, now))
  {
    hide Protocol.Legal, Protocol.Exec;
    OverlaySaysPhase(u.host, u.run, place, u.k, u.labels, u.record);
    ViewSaysPhase(u.host, u.run, place, u.k, u.labels);
    assert Tells(u, EventOf(ViewOf(u, place).value, now), place, now);
  }

  lemma RecordIsTruth(u: Setup, now: nat)
    requires SetupOk(u) && ClockAt(u, 0, now)
    ensures Truth(u, EventOf(u.record, now))
  {
    assert TellsRecord(u, EventOf(u.record, now), now);
  }

  lemma TruthStep(u: Setup, s: Stream, a: Act)
    requires SetupOk(u) && Truthful(u, s) && CanStep(u, s, a)
    ensures Truthful(u, Step(u, s, a))
  {
    hide SetupOk, ViewOf, ClockAt, Truth, EventOf;
    match a
    case ReadRecord(now) => RecordIsTruth(u, now);
    case ReadPipeline(place, now) => ReadIsTruth(u, place, now);
    case _ =>
  }

  lemma {:induction false} AlwaysTruthful(u: Setup, acts: seq<Act>)
    requires SetupOk(u) && Schedule(u, NEW_STREAM, acts)
    ensures Truthful(u, After(u, NEW_STREAM, acts))
  {
    if acts != [] {
      hide SetupOk, CanStep, Step, Truthful;
      var before := acts[..|acts| - 1];
      AlwaysTruthful(u, before);
      TruthStep(u, After(u, NEW_STREAM, before), Protocol.Last(acts));
    }
  }

  /** Every status event says what the pipeline, or before any was read the record, was when it was read. */
  lemma EventsTellTheTruth(u: Setup, acts: seq<Act>, m: Message)
    requires SetupOk(u) && Schedule(u, NEW_STREAM, acts) && m in After(u, NEW_STREAM, acts).sent
    requires m.event.StatusChanged?
    ensures (exists place: nat, now: nat :: Tells(u, m.event, place, now)) || (exists now: nat :: TellsRecord(u, m.event, now))
  {
    hide SetupOk, Schedule, After, Tells, TellsRecord;
    AlwaysTruthful(u, acts);
  }

  /** A terminal phase is the last one. */
  lemma TerminalStays(u: Setup, place: nat)
    requires SetupOk(u) && place <= |u.run| && StatusAt(u.host, u.run, place, u.k).Some?
    requires StatusAt(u.host, u.run, place, u.k).value.phase.Terminal()
    ensures var w := Protocol.Exec(Protocol.InitialWorld(u.host), u.run);
            u.k in w.cells && w.cells[u.k].status == StatusAt(u.host, u.run, place, u.k).value
  {
    hide Protocol.Legal, Protocol.Exec;
    ProtocolTheorems.PhasesMoveForward(u.host, u.run, place, |u.run|, u.k);
    assert u.run[..|u.run|] == u.run;
  }

  /**
   A stream that nobody cancelled ends with the pipeline's own outcome: with Succeeded exactly if the
   pipeline ended so, and then no version of its Job was broken; with Failed exactly if it ended so, and
   then one was.
   */
  lemma EndsAsThePipeline(u: Setup, acts: seq<Act>)
    requires SetupOk(u) && Schedule(u, NEW_STREAM, acts)
    requires var s := After(u, NEW_STREAM, acts); !s.cancelled && s.closes > 0
    ensures var w := Protocol.Exec(Protocol.InitialWorld(u.host), u.run);
            var statuses := Statuses(After(u, NEW_STREAM, acts).sent);
            && u.k in w.cells && statuses != []
            && (Protocol.Last(statuses).Succeeded? <==> w.cells[u.k].status.phase.Succeeded?)
            && (Protocol.Last(statuses).Failed? <==> w.cells[u.k].status.phase.Failed?)
            && (Protocol.Last(statuses).Succeeded? <==> !ProtocolInvariant.SomeJobBroken(w.cells[u.k].job.log))
  {
    hide Schedule, After, Sound, Protocol.Legal, Protocol.Exec, ViewAt, StatusAt, ProtocolSafety.Inv;
    CompleteStream(u, acts);
    StreamInv(u, acts);
    var s := After(u, NEW_STREAM, acts);
    assert Statuses(s.sent) + [] == Statuses(s.sent);
    OverlaySaysPhase(u.host, u.run, s.at, u.k, u.labels, u.record);
    ViewSaysPhase(u.host, u.run, s.at, u.k, u.labels);
    TerminalStays(u, s.at);
    ProtocolSafety.Safety(u.host, u.run);
    Progress.OutcomeOfJob(Protocol.Exec(Protocol.InitialWorld(u.host), u.run), u.k);
  }

  // ---------- A caller that goes away ----------

  predicate NoReceive(acts: seq<Act>) { forall i :: 0 <= i < |acts| ==> !acts[i].Receive? }

  /** No more than ten messages wait to be received. */
  lemma TenMessagesWait(u: Setup, acts: seq<Act>)
    requires SetupOk(u) && Schedule(u, NEW_STREAM, acts)
    ensures var s := After(u, NEW_STREAM, acts);
            s.taken <= |s.sent| <= s.taken + 10 && (Stuck(s) <==> s.loop.Sending? && |s.sent| == s.taken + 10)
  {
    hide SetupOk, Schedule, After, Informed, Sound, Logged;
    StreamInv(u, acts);
  }

  /** The loop holds a status, the channel is full, and the send does not look at the context. */
  predicate Stuck(s: Stream) { s.loop.Sending? && !HasRoom(s) }

  ghost predicate EndsWithoutReceives(u: Setup, s: Stream, more: seq<Act>) {
    Schedule(u, s, more) && NoReceive(more) && After(u, s, more).closes == 1
  }

  lemma {:induction false} StuckForever(u: Setup, s: Stream, more: seq<Act>)
    requires Stuck(s) && Shape(s) && Schedule(u, s, more) && NoReceive(more)
    ensures Stuck(After(u, s, more)) && Shape(After(u, s, more))
  {
    if more != [] {
      hide ViewOf, ClockAt, Shape;
      var init := more[..|more| - 1];
      StuckForever(u, s, init);
      ShapeStep(u, After(u, s, init), Protocol.Last(more));
    }
  }

  /** The next step towards the end of a cancelled stream. */
  function Closing(u: Setup, s: Stream): Act {
    match s.loop
    case Fresh => ReadRecord(EarliestClock(u))
    case Sending(_) => SendStatus
    case Waiting => if s.log.Idle? then Spawn else Leave
    case Left => if s.log.Scanning? then StopLog else Close
    case Closed => Cancel
  }

  function EarliestClock(u: Setup): nat {
    var t := TimeAt(u.host, u.run, 0);
    if u.record.startedAt.Some? && u.record.startedAt.value > t then u.record.startedAt.value else t
  }

  function LoopWork(s: Stream): nat {
    match s.loop
    case Fresh => 5
    case Sending(_) => 4
    case Waiting => if s.log.Idle? then 3 else 2
    case Left => if s.log.Scanning? then 1 else 0
    case Closed => 0
  }

  lemma ClosingStep(u: Setup, s: Stream)
    requires SetupOk(u) && Inv(u, s) && s.cancelled && !Stuck(s) && !s.loop.Closed?
    ensures CanStep(u, s, Closing(u, s)) && !Closing(u, s).Receive?
    ensures var t := Step(u, s, Closing(u, s));
            && t.cancelled && !Stuck(t) && (t.closes == 1 <==> t.loop.Closed?)
            && (LoopWork(t) < LoopWork(s) || (LoopWork(t) == LoopWork(s) && s.loop.Left? && !t.loop.Left?))
  {
    hide ViewOf, Sound, Logged, Protocol.Legal;
  }

  lemma {:induction false} CanClose(u: Setup, s: Stream) returns (more: seq<Act>)
    requires SetupOk(u) && Inv(u, s) && s.cancelled && !Stuck(s)
    ensures EndsWithoutReceives(u, s, more)
    decreases LoopWork(s), s.loop.Left?
  {
    if s.loop.Closed? { return []; }
    hide Inv, Step, CanStep, SetupOk;
    var a := Closing(u, s);
    var t := Step(u, s, a);
    ClosingStep(u, s);
    InvStep(u, s, a);
    var rest := CanClose(u, t);
    assert After(u, s, [a]) == t && Schedule(u, s, [a]) by { OneAct(u, s, a); }
    ConcatSchedules(u, s, [a], rest);
    more := [a] + rest;
  }

  lemma OneAct(u: Setup, s: Stream, a: Act)
    requires CanStep(u, s, a)
    ensures After(u, s, [a]) == Step(u, s, a) && Schedule(u, s, [a])
  {
    assert [a][..0] == [];
  }

  /**
   After a cancellation the stream can end without the consumer, unless the status loop is blocked
   on a full channel; in that case it never does.
   */
  lemma AbandonedStream(u: Setup, acts: seq<Act>)
    requires SetupOk(u) && Schedule(u, NEW_STREAM, acts) && After(u, NEW_STREAM, acts).cancelled
    ensures var s := After(u, NEW_STREAM, acts);
            (exists more :: EndsWithoutReceives(u, s, more)) <==> !(s.loop.Sending? && |s.sent| == s.taken + 10)
  {
    hide SetupOk, CanStep, Step, Informed, Sound, Logged;
    var s := After(u, NEW_STREAM, acts);
    StreamInv(u, acts);
    TenMessagesWait(u, acts);
    if Stuck(s) {
      forall more | EndsWithoutReceives(u, s, more)
        ensures false
      {
        StuckForever(u, s, more);
      }
    } else {
      var more := CanClose(u, s);
      assert EndsWithoutReceives(u, s, more);
    }
  }

  /** The step can be taken next, and leads there. */
  lemma Extend(u: Setup, acts: seq<Act>, a: Act)
    requires Schedule(u, NEW_STREAM, acts) && CanStep(u, After(u, NEW_STREAM, acts), a)
    ensures Schedule(u, NEW_STREAM, acts + [a])
    ensures After(u, NEW_STREAM, acts + [a]) == Step(u, After(u, NEW_STREAM, acts), a)
  {
    assert (acts + [a])[..|acts|] == acts;
  }

  /** The log producer sends its first `n` lines right after the first status. */
  lemma {:induction false} LinesFirst(u: Setup, now: nat, n: nat) returns (acts: seq<Act>)
    requires SetupOk(u) && ClockAt(u, 0, now) && u.opens && n <= |u.lines| && n < CAPACITY
    ensures Schedule(u, NEW_STREAM, acts)
    ensures var s := After(u, NEW_STREAM, acts);
            && s.loop.Waiting? && s.last == Some(DeploymentStatus.Queued) && s.log == Scanning(n) && s.at == 0
            && |s.sent| == 1 + n && s.taken == 0 && !s.cancelled
  {
    hide SetupOk, ClockAt, ViewOf, CanStep, Step;
    if n == 0 {
      acts := Started(u, now);
    } else {
      var before := LinesFirst(u, now, n - 1);
      CanSendLine(u, After(u, NEW_STREAM, before));
      Extend(u, before, SendLine);
      acts := before + [SendLine];
    }
  }

  lemma CanSendLine(u: Setup, s: Stream)
    requires LineDue(u, s) && HasRoom(s)
    ensures CanStep(u, s, SendLine)
    ensures Step(u, s, SendLine) == Send(s, LogProducer, LogChunk(u.lines[s.log.next])).(log := Scanning(s.log.next + 1))
  {
  }

  lemma Started(u: Setup, now: nat) returns (acts: seq<Act>)
    requires SetupOk(u) && ClockAt(u, 0, now)
    ensures Schedule(u, NEW_STREAM, acts)
    ensures After(u, NEW_STREAM, acts) ==
            Send(NEW_STREAM, StatusLoop, EventOf(u.record, now))
              .(loop := Waiting, last := Some(DeploymentStatus.Queued), log := Scanning(0))
  {
    hide ClockAt, ViewOf, Protocol.Legal;
    assert Schedule(u, NEW_STREAM, []) && After(u, NEW_STREAM, []) == NEW_STREAM;
    Extend(u, [], ReadRecord(now));
    Extend(u, [] + [ReadRecord(now)], SendStatus);
    Extend(u, [] + [ReadRecord(now)] + [SendStatus], Spawn);
    acts := [] + [ReadRecord(now)] + [SendStatus] + [Spawn];
  }

  /**
   The blocked state is real: with nine log lines and a pipeline that gets beyond Queued, a consumer
   that leaves can leave the stream open for good.
   */
  lemma StreamCanHang(u: Setup, place: nat, now: nat) returns (acts: seq<Act>)
    requires SetupOk(u) && u.opens && |u.lines| >= 9
    requires ClockAt(u, 0, now) && ClockAt(u, place, now) && ViewOf(u, place).Some? && !ViewOf(u, place).value.status.Queued?
    ensures Schedule(u, NEW_STREAM, acts) && After(u, NEW_STREAM, acts).cancelled
    ensures !exists more :: EndsWithoutReceives(u, After(u, NEW_STREAM, acts), more)
  {
    var full := LinesFirst(u, now, CAPACITY - 1);
    hide SetupOk, ClockAt, ViewOf;
    Extend(u, full, ReadPipeline(place, now));
    Extend(u, full + [ReadPipeline(place, now)], Cancel);
    acts := full + [ReadPipeline(place, now)] + [Cancel];
    AbandonedStream(u, acts);
  }

  predicate ByLogOrConsumer(a: Act) {
    a.SendLine? || a.SkipLine? || a.SendFailure? || a.StopLog? || a.Receive? || a.Cancel?
  }

  function LogAct(u: Setup, s: Stream): Act {
    if !HasRoom(s) then Receive
    else if LineDue(u, s) then SendLine
    else if FailureDue(u, s) then SendFailure
    else StopLog
  }

  function LinesLeft(u: Setup, s: Stream): int { if s.log.Scanning? then |u.lines| - s.log.next else 0 }

  lemma LogActWorks(u: Setup, s: Stream)
    requires Shape(s) && Logged(u, s) && s.log.Scanning?
    ensures CanStep(u, s, LogAct(u, s)) && ByLogOrConsumer(LogAct(u, s))
    ensures var t := Step(u, s, LogAct(u, s));
            && !t.log.Idle? && 0 <= LinesLeft(u, t) <= LinesLeft(u, s)
            && (t.log.Stopped? || LinesLeft(u, t) < LinesLeft(u, s) || (!HasRoom(s) && HasRoom(t)))
  {
    hide ViewOf, ClockAt, FromLog;
  }

  /** As long as the consumer takes what is there, the log producer comes to its end. */
  lemma {:induction false} LogCanStop(u: Setup, s: Stream) returns (more: seq<Act>)
    requires SetupOk(u) && Inv(u, s) && !s.log.Idle?
    ensures Schedule(u, s, more) && After(u, s, more).log.Stopped?
    ensures forall i :: 0 <= i < |more| ==> ByLogOrConsumer(more[i])
    decreases !s.log.Stopped?, LinesLeft(u, s), !HasRoom(s)
  {
    if s.log.Stopped? { return []; }
    hide SetupOk, Shape, Informed, Sound, Logged, CanStep, Step, LogAct, HasRoom, ByLogOrConsumer;
    var a := LogAct(u, s);
    LogActWorks(u, s);
    InvStep(u, s, a);
    var rest := LogCanStop(u, Step(u, s, a));
    OneAct(u, s, a);
    ConcatSchedules(u, s, [a], rest);
    more := [a] + rest;
  }
}
