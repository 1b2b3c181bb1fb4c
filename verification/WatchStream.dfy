/**
 The event stream of one deployment (internal/usecase/deployment.go): a status loop and a log
 producer share a bounded channel, and the goroutine that started them closes it after both have
 stopped. A schedule is a list of their steps, of receives and of the caller's cancellation; the
 pipeline that is watched moves along a run of the deployment protocol.
 */
module WatchStream {
  import opened Wrappers
  import opened Objects
  import opened Deployments
  import opened PipelineViews
  import Protocol

  const CAPACITY := 10

  const LOGS_FAILED := "failed to retrieve logs"

  datatype Event = StatusChanged(status: DeploymentStatus, elapsed: int, finishedAt: Option<nat>) | LogChunk(line: string)

  datatype Origin = StatusLoop | LogProducer

  datatype Message = Message(origin: Origin, event: Event)

  /**
   What is watched: the protocol run that the pipeline `k` moves along, the deployment's record, the
   lines of the build log, whether the log opens, and whether reading it ends with an error.
   */
  datatype Setup = Setup(
    host: string, run: seq<Protocol.Action>, k: Key, labels: PipelineLabels, record: Deployment,
    lines: seq<string>, opens: bool, broken: bool)

  predicate SetupOk(u: Setup) {
    && Protocol.Legal(Protocol.InitialWorld(u.host), u.run)
    && u.record.status.Queued? && u.record.startedAt.Some? && u.record.finishedAt.None?
  }

  /** The status loop has read nothing yet, holds a status to send, waits for a tick, or is over. */
  datatype LoopState = Fresh | Sending(event: Event) | Waiting | Left | Closed

  datatype LogState = Idle | Scanning(next: nat) | Stopped

  /** `last` is the status that the loop remembers, and `at` where in the protocol run it was read. */
  datatype Stream = Stream(
    sent: seq<Message>, taken: nat, closes: nat, loop: LoopState, last: Option<DeploymentStatus>, at: nat,
    log: LogState, cancelled: bool)

  const NEW_STREAM := Stream([], 0, 0, Fresh, None, 0, Idle, false)

  datatype Act =
    // the goroutine that runs the status loop
    | ReadRecord(now: nat) | ReadPipeline(place: nat, now: nat) | SendStatus | SendError(text: string)
    | Spawn | Leave | Close
    // the log producer
    | SendLine | SkipLine | SendFailure | StopLog
    // the caller
    | Receive | Cancel

  predicate HasRoom(s: Stream) { |s.sent| < s.taken + CAPACITY }

  /** The loop goes on while the last status is not terminal. */
  predicate Polling(s: Stream) { s.loop.Waiting? && !s.log.Idle? && s.last.Some? && !s.last.value.Terminal() }

  function ViewOf(u: Setup, place: nat): Option<Deployment> {
    if place > |u.run| then None else
      match ViewAt(u.host, u.run, place, u.k, u.labels)
      case None => None
      case Some(view) => Some(Overlay(u.record, view))
  }

  predicate ClockAt(u: Setup, place: nat, now: nat) {
    && u.record.startedAt.Some? && u.record.startedAt.value <= now
    && place <= |u.run| && TimeAt(u.host, u.run, place) <= now
  }

  function EventOf(d: Deployment, now: nat): Event { StatusChanged(d.status, Duration(d, now), d.finishedAt) }

  /**
   The log could not be opened, or reading it failed: after the last line that it has, or anywhere once
   the context is done, as the reader may report another error than the cancellation.
   */
  predicate FailureDue(u: Setup, s: Stream) {
    && s.log.Scanning?
    && (if u.opens then (u.broken && s.log.next == |u.lines|) || s.cancelled else s.log.next == 0)
  }

  predicate LineDue(u: Setup, s: Stream) { s.log.Scanning? && u.opens && s.log.next < |u.lines| }

  predicate CanStep(u: Setup, s: Stream, a: Act) {
    match a
    case ReadRecord(now) => s.loop.Fresh? && ClockAt(u, 0, now)
    case ReadPipeline(place, now) =>
      && s.at <= place && ClockAt(u, place, now) && ViewOf(u, place).Some?
      && (s.loop.Fresh? || (Polling(s) && Some(ViewOf(u, place).value.status) != s.last))
    case SendStatus => s.loop.Sending? && HasRoom(s)
    case SendError(_) => Polling(s) && HasRoom(s)
    case Spawn => s.loop.Waiting? && s.log.Idle?
    case Leave =>
      s.loop.Waiting? && !s.log.Idle? && ((s.last.Some? && s.last.value.Terminal()) || s.cancelled)
    case Close => s.loop.Left? && s.log.Stopped?
    case SendLine => LineDue(u, s) && HasRoom(s)
    case SkipLine => LineDue(u, s) && s.cancelled
    case SendFailure => FailureDue(u, s) && HasRoom(s)
    case StopLog => s.log.Scanning? && ((u.opens && !u.broken && s.log.next == |u.lines|) || s.cancelled)
    case Receive => s.taken < |s.sent|
    case Cancel => true
  }

  function Send(s: Stream, origin: Origin, event: Event): Stream { s.(sent := s.sent + [Message(origin, event)]) }

  function Hold(s: Stream, d: Deployment, now: nat): Stream {
    s.(loop := Sending(EventOf(d, now)), last := Some(d.status))
  }

  function Step(u: Setup, s: Stream, a: Act): Stream {
    match a
    case ReadRecord(now) => Hold(s, u.record, now)
    case ReadPipeline(place, now) =>
      if ViewOf(u, place).None? then s else Hold(s, ViewOf(u, place).value, now).(at := place)
    case SendStatus => if s.loop.Sending? then Send(s, StatusLoop, s.loop.event).(loop := Waiting) else s
    case SendError(text) => Send(s, StatusLoop, LogChunk("[status error] " + text))
    case Spawn => s.(log := Scanning(0))
    case Leave => s.(loop := Left)
    case Close => s.(loop := Closed, closes := s.closes + 1)
    case SendLine =>
      if LineDue(u, s) then Send(s, LogProducer, LogChunk(u.lines[s.log.next])).(log := Scanning(s.log.next + 1)) else s
    case SkipLine => if s.log.Scanning? then s.(log := Scanning(s.log.next + 1)) else s
    case SendFailure => Send(s, LogProducer, LogChunk(LOGS_FAILED)).(log := Stopped)
    case StopLog => s.(log := Stopped)
    case Receive => s.(taken := s.taken + 1)
    case Cancel => s.(cancelled := true)
  }

  function After(u: Setup, s: Stream, acts: seq<Act>): Stream {
    if acts == [] then s else Step(u, After(u, s, acts[..|acts| - 1]), Protocol.Last(acts))
  }

  predicate Schedule(u: Setup, s: Stream, acts: seq<Act>) {
    acts == [] || (Schedule(u, s, acts[..|acts| - 1]) && CanStep(u, After(u, s, acts[..|acts| - 1]), Protocol.Last(acts)))
  }

  lemma {:induction false} ConcatSchedules(u: Setup, s: Stream, acts: seq<Act>, more: seq<Act>)
    ensures After(u, s, acts + more) == After(u, After(u, s, acts), more)
    ensures Schedule(u, s, acts + more) <==> Schedule(u, s, acts) && Schedule(u, After(u, s, acts), more)
  {
    if more == [] {
      assert acts + more == acts;
    } else {
      var init := more[..|more| - 1];
      ConcatSchedules(u, s, acts, init);
      assert (acts + more)[..|acts + more| - 1] == acts + init;
    }
  }

  // ---------- The invariant ----------

  function Statuses(sent: seq<Message>): seq<DeploymentStatus> {
    if sent == [] then []
    else if Protocol.Last(sent).event.StatusChanged? then Statuses(sent[..|sent| - 1]) + [Protocol.Last(sent).event.status]
    else Statuses(sent[..|sent| - 1])
  }

  function FromLog(sent: seq<Message>): seq<string> {
    if sent == [] then []
    else if Protocol.Last(sent).origin.LogProducer? && Protocol.Last(sent).event.LogChunk? then
      FromLog(sent[..|sent| - 1]) + [Protocol.Last(sent).event.line]
    else FromLog(sent[..|sent| - 1])
  }

  lemma SentOneMore(sent: seq<Message>, m: Message)
    ensures Statuses(sent + [m]) == Statuses(sent) + (if m.event.StatusChanged? then [m.event.status] else [])
    ensures FromLog(sent + [m]) == FromLog(sent) + (if m.origin.LogProducer? && m.event.LogChunk? then [m.event.line] else [])
  {
    assert (sent + [m])[..|sent|] == sent;
  }

  predicate Rising(statuses: seq<DeploymentStatus>) {
    forall i, j :: 0 <= i < j < |statuses| ==> statuses[i].Rank() < statuses[j].Rank()
  }

  /** The statuses sent so far and the one that the loop holds. */
  function Announced(s: Stream): seq<DeploymentStatus> {
    Statuses(s.sent) + (if s.loop.Sending? && s.loop.event.StatusChanged? then [s.loop.event.status] else [])
  }

  predicate GoodEvent(e: Event) {
    e.StatusChanged? ==> Validate(e.status, e.finishedAt).Ok? && e.elapsed >= 0
  }

  /** Who may still send, and that the channel is open as long as anyone may. */
  predicate Shape(s: Stream) {
    && s.closes == (if s.loop.Closed? then 1 else 0)
    && (s.loop.Closed? ==> s.log.Stopped?)
    && (s.loop.Left? || s.loop.Closed? ==> !s.log.Idle?)
    && s.taken <= |s.sent| <= s.taken + CAPACITY
    && (s.loop.Fresh? ==> s.log.Idle? && s.sent == [])
    && (s.loop.Sending? ==> s.loop.event.StatusChanged? && (s.log.Idle? ==> s.sent == []))
    && (!s.log.Idle? || s.loop.Waiting? ==> s.sent != [])
    && (s.sent != [] ==> s.sent[0].event.StatusChanged?)
  }

  /** The statuses rise, and the loop remembers one that the pipeline really had. */
  ghost predicate Informed(u: Setup, s: Stream) {
    && (s.last.None? <==> s.loop.Fresh?) && s.at <= |u.run|
    && Rising(Announced(s))
    && (s.last.None? <==> Announced(s) == [])
    && (s.last.Some? ==> Protocol.Last(Announced(s)) == s.last.value)
    && (s.last.Some? && !s.last.value.Queued? ==> ViewOf(u, s.at).Some? && ViewOf(u, s.at).value.status == s.last.value)
    && (s.loop.Left? || s.loop.Closed? ==> s.cancelled || s.last.value.Terminal())
  }

  predicate Sound(s: Stream) {
    && (forall m :: m in s.sent ==> GoodEvent(m.event))
    && (s.loop.Sending? ==> GoodEvent(s.loop.event))
  }

  /** What the log producer has sent when it is through and nobody cancelled. */
  function WholeLog(u: Setup): seq<string> {
    if !u.opens then [LOGS_FAILED] else u.lines + (if u.broken then [LOGS_FAILED] else [])
  }

  predicate Logged(u: Setup, s: Stream) {
    match s.log
    case Idle => FromLog(s.sent) == []
    case Scanning(n) => n <= |u.lines| && (!u.opens ==> n == 0) && (!s.cancelled ==> FromLog(s.sent) == u.lines[..n])
    case Stopped => !s.cancelled ==> FromLog(s.sent) == WholeLog(u)
  }

  ghost predicate Inv(u: Setup, s: Stream) { Shape(s) && Informed(u, s) && Sound(s) && Logged(u, s) }

  lemma ShapeStep(u: Setup, s: Stream, a: Act)
    requires Shape(s) && CanStep(u, s, a)
    ensures Shape(Step(u, s, a))
  {
    hide ViewOf, ClockAt;
  }

  /** A later view of a pipeline that has another status has a higher one. */
  lemma NewStatusIsHigher(u: Setup, s: Stream, place: nat)
    requires SetupOk(u) && Informed(u, s) && s.last.Some? && s.at <= place && ViewOf(u, place).Some?
    requires ViewOf(u, place).value.status != s.last.value
    ensures s.last.value.Rank() < ViewOf(u, place).value.status.Rank()
  {
    if !s.last.value.Queued? {
      hide ViewAt, Protocol.Legal;
      ViewsMoveForward(u.host, u.run, s.at, place, u.k, u.labels);
    }
  }

  lemma RisesBy(statuses: seq<DeploymentStatus>, t: DeploymentStatus)
    requires Rising(statuses) && (statuses != [] ==> Protocol.Last(statuses).Rank() < t.Rank())
    ensures Rising(statuses + [t])
  {
  }

  /** The loop takes up a status that is higher than all before. */
  lemma HoldInformed(u: Setup, s: Stream, d: Deployment, now: nat, place: nat)
    requires Informed(u, s) && (s.loop.Fresh? || s.loop.Waiting?) && place <= |u.run|
    requires s.last.Some? ==> s.last.value.Rank() < d.status.Rank()
    requires !d.status.Queued? ==> ViewOf(u, place).Some? && ViewOf(u, place).value.status == d.status
    ensures Informed(u, Hold(s, d, now).(at := place))
  {
    hide ViewOf, Rising;
    var t := Hold(s, d, now).(at := place);
    RisesBy(Announced(s), d.status);
    assert Announced(t) == Announced(s) + [d.status];
  }

  /** Steps that leave the loop's memory alone. */
  lemma QuietInformed(u: Setup, s: Stream, t: Stream)
    requires Informed(u, s) && t.last == s.last && t.at == s.at && Announced(t) == Announced(s)
    requires t.loop.Fresh? <==> s.loop.Fresh?
    requires s.cancelled ==> t.cancelled
    requires t.loop.Left? || t.loop.Closed? ==>
               s.loop.Left? || s.loop.Closed? || t.cancelled || (t.last.Some? && t.last.value.Terminal())
    ensures Informed(u, t)
  {
    hide ViewOf, Rising, Announced;
  }

  lemma SameAnnounced(u: Setup, s: Stream, a: Act)
    requires Shape(s) && CanStep(u, s, a) && !a.ReadRecord? && !a.ReadPipeline?
    ensures Announced(Step(u, s, a)) == Announced(s)
  {
    hide ViewOf, ClockAt, Statuses;
    var t := Step(u, s, a);
    if t.sent != s.sent { SentOneMore(s.sent, Protocol.Last(t.sent)); }
  }

  lemma InformedStep(u: Setup, s: Stream, a: Act)
    requires SetupOk(u) && Shape(s) && Informed(u, s) && CanStep(u, s, a)
    ensures Informed(u, Step(u, s, a))
  {
    hide ViewOf, TimeAt, Protocol.Legal, Rising, Statuses, Informed;
    match a
    case ReadRecord(now) =>
      FreshIsBlank(u, s);
      HoldInformed(u, s, u.record, now, s.at);
    case ReadPipeline(place, now) =>
      if s.loop.Fresh? {
        FreshIsBlank(u, s);
      } else {
        NewStatusIsHigher(u, s, place);
      }
      HoldInformed(u, s, ViewOf(u, place).value, now, place);
    case _ =>
      SameAnnounced(u, s, a);
      QuietInformed(u, s, Step(u, s, a));
  }

  lemma FreshIsBlank(u: Setup, s: Stream)
    requires Informed(u, s)
    ensures (s.last.None? <==> s.loop.Fresh?) && s.at <= |u.run|
  {
  }

  lemma SoundStep(u: Setup, s: Stream, a: Act)
    requires SetupOk(u) && Sound(s) && CanStep(u, s, a)
    ensures Sound(Step(u, s, a))
  {
    match a
    case ReadPipeline(place, now) => ViewIsValid(u.host, u.run, place, u.k, u.labels, u.record, now);
    case _ =>
  }

  lemma LoggedStep(u: Setup, s: Stream, a: Act)
    requires Shape(s) && Logged(u, s) && CanStep(u, s, a)
    ensures Logged(u, Step(u, s, a))
  {
    hide ViewOf, ClockAt, FromLog;
    var t := Step(u, s, a);
    if t.sent != s.sent { SentOneMore(s.sent, Protocol.Last(t.sent)); }
  }

  lemma {:induction false} StreamInv(u: Setup, acts: seq<Act>)
    requires SetupOk(u) && Schedule(u, NEW_STREAM, acts)
    ensures Inv(u, After(u, NEW_STREAM, acts))
  {
    hide SetupOk, Shape, Informed, Sound, Logged, CanStep, Step;
    if acts == [] {
      NewStreamInv(u);
    } else {
      var before := acts[..|acts| - 1];
      StreamInv(u, before);
      InvStep(u, After(u, NEW_STREAM, before), Protocol.Last(acts));
    }
  }

  lemma NewStreamInv(u: Setup)
    ensures Inv(u, NEW_STREAM)
  {
  }

  lemma InvStep(u: Setup, s: Stream, a: Act)
    requires SetupOk(u) && Inv(u, s) && CanStep(u, s, a)
    ensures Inv(u, Step(u, s, a))
  {
    hide SetupOk, Shape, Informed, Sound, Logged, CanStep, Step;
    ShapeStep(u, s, a);
    InformedStep(u, s, a);
    SoundStep(u, s, a);
    LoggedStep(u, s, a);
  }
}
