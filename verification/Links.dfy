/**
 The stop-and-wait link to the conveyors as a step machine. The handlers of the
 ANT server are atomic steps; the timer thread, the driver's polling loop and
 the queue handler's loop are split at the points where other threads can run.
 */
module Links {
  import opened CentralTypes
  import opened Messages

  datatype Flow = CONTINUE | STOP

  /** What goes on the air: the meaningful bytes of the 8-byte message. */
  datatype Frame = Frame(conveyor: byte, id: byte, data: seq<byte>, time: byte)

  datatype Response =
    | MessageReceived(id: byte, conveyor: byte)
    | StateResponse(conveyor: byte, available: bool)
    | ClearResponse(box: byte, packages: set<int>)
    | PackageArrived(box: byte, pkg: byte)
    | UnknownResponse(id: byte)

  /** Where the timer thread is: watching the clock, past its check, or about to raise the timeout flag. */
  datatype TimerStage = WATCHING | EXPIRING | RAISING

  /** What an observer of the link sees. */
  datatype Note =
    | Popped(msg: Message)
    | Sent(frame: Frame)
    | Availability(conveyor: int, available: bool)
    | Acked(id: int)
    | Forwarded(report: Report)

  datatype Link = Link(
    tx: seq<Message>,              // queue from the processing thread
    held: Option<Message>,         // popped by the queue handler, not yet handed to the server
    flow: Flow,
    pendingInput: Option<Message>, // an ADD_PACKAGE waiting for the input conveyor
    checking: bool,
    pending: Option<Message>,      // what a timeout retransmits
    waiting: bool,
    waitingConveyor: int,
    waitingId: int,
    timestamp: byte,
    running: bool,                 // the timer is running
    expired: bool,                 // the timer thread's timeout_occured
    stage: TimerStage,
    timedOut: bool,                // the driver's flag
    taking: bool,                  // the driver has cleared the flag and is about to call the server
    log: seq<Note>)

  const INIT := Link([], None, CONTINUE, None, false, None, false, EMPTY_CONVEYOR_ID, -1, 0,
                     false, false, WATCHING, false, false, [])

  datatype Event =
    | Enqueue(msg: Message)
    | Pop
    | Dispatch
    | Deliver(response: Response)
    | TimerExpires
    | TimerCommits
    | TimerClears
    | TimerRaises
    | DriverTakes
    | DriverHandles

  /** A step of the timer or the driver, which needs nothing from outside. */
  predicate Internal(e: Event) {
    e.TimerExpires? || e.TimerCommits? || e.TimerClears? || e.TimerRaises? || e.DriverTakes? || e.DriverHandles?
  }

  // ---- handlers ----

  function FrameOf(m: Message, time: byte): Frame {
    Frame(Low(m.conveyor), Low(m.id), m.data, time)
  }

  function Poll(conveyor: int): Message {
    Message(CONVEYOR_STATE_ID, conveyor, [])
  }

  function Transmit(s: Link, m: Message): Link {
    s.(pending := Some(m), running := true, log := s.log + [Sent(FrameOf(m, s.timestamp))])
  }

  function SendFresh(s: Link, m: Message): Link {
    Transmit(s.(timestamp := Low(s.timestamp + 1)), m)
  }

  function AwaitReply(s: Link, id: int, conveyor: int): Link {
    s.(waiting := true, waitingId := id, waitingConveyor := conveyor)
  }

  function RequestState(s: Link, conveyor: int): Link {
    SendFresh(AwaitReply(s, CONVEYOR_STATE_RESPONSE_ID, conveyor), Poll(conveyor))
  }

  function SendAnt(s: Link, m: Message): Link {
    if m.id == ADD_PACKAGE_ID then
      RequestState(s.(pendingInput := Some(m), checking := true), m.conveyor)
    else if m.id == CLEAR_BOX_ID then
      SendFresh(AwaitReply(s, CLEAR_BOX_RESPONSE_ID, m.conveyor), m)
    else
      SendFresh(AwaitReply(s, m.id, m.conveyor), m)
  }

  function ContinueFlow(s: Link): Link {
    if s.checking then s else s.(flow := CONTINUE)
  }

  function StopWaiting(s: Link): Link {
    s.(running := false, waiting := false, waitingId := -1, waitingConveyor := EMPTY_CONVEYOR_ID, pending := None)
  }

  function InputState(s: Link, conveyor: int, available: bool): Link {
    if s.pendingInput.None? then s
    else if available then
      SendFresh(AwaitReply(s.(checking := false), ADD_PACKAGE_ID, conveyor), s.pendingInput.value).(pendingInput := None)
    else
      RequestState(s, conveyor)
  }

  function Receive(s: Link, r: Response): Link {
    match r
    case MessageReceived(id, conveyor) =>
      if s.waiting && s.waitingId == id && s.waitingConveyor == conveyor then
        ContinueFlow(StopWaiting(s.(log := s.log + [Acked(id)])))
      else s
    case StateResponse(conveyor, available) =>
      if s.waiting && s.waitingId == CONVEYOR_STATE_RESPONSE_ID && s.waitingConveyor == conveyor then
        InputState(s.(running := false, log := s.log + [Availability(conveyor, available)]), conveyor, available)
      else s
    case ClearResponse(box, packages) =>
      if s.waiting && s.waitingId == CLEAR_BOX_RESPONSE_ID then
        ContinueFlow(StopWaiting(s.(log := s.log + [Forwarded(ReportCleared(box, packages))])))
      else s
    case PackageArrived(box, pkg) => s.(log := s.log + [Forwarded(ReportArrived(box, pkg))])
    case UnknownResponse(_) => s
  }

  function TimedOut(s: Link): Link {
    if s.pending.Some? then Transmit(s, s.pending.value) else s
  }

  predicate CanPop(s: Link) {
    s.held.None? && s.tx != [] && s.flow == CONTINUE
  }

  /** One step; an event that cannot happen in a state leaves it as it is. */
  function Step(s: Link, e: Event): Link {
    match e
    case Enqueue(m) => s.(tx := s.tx + [m])
    case Pop =>
      if CanPop(s) then
        s.(tx := s.tx[1..], held := Some(s.tx[0]), flow := STOP, log := s.log + [Popped(s.tx[0])])
      else s
    case Dispatch => if s.held.Some? then SendAnt(s.(held := None), s.held.value) else s
    case Deliver(r) => Receive(s, r)
    case TimerExpires => if s.stage == WATCHING && s.running then s.(expired := true) else s
    case TimerCommits => if s.stage == WATCHING && s.expired && s.running then s.(stage := EXPIRING) else s
    case TimerClears => if s.stage == EXPIRING then s.(running := false, expired := false, stage := RAISING) else s
    case TimerRaises => if s.stage == RAISING then s.(timedOut := true, stage := WATCHING) else s
    case DriverTakes => if s.timedOut && !s.taking then s.(timedOut := false, taking := true) else s
    case DriverHandles => if s.taking then TimedOut(s.(taking := false)) else s
  }

  function Run(s: Link, es: seq<Event>): Link
    decreases |es|
  {
    if es == [] then s else Run(Step(s, es[0]), es[1..])
  }

  // ---- what a step adds to the log ----

  /** The frame that a popped message first puts on the air. */
  function FirstFrame(s: Link, m: Message): Frame {
    FrameOf(if m.id == ADD_PACKAGE_ID then Poll(m.conveyor) else m, Low(s.timestamp + 1))
  }

  function NotesOf(s: Link, e: Event): seq<Note> {
    match e
    case Pop => if CanPop(s) then [Popped(s.tx[0])] else []
    case Dispatch => if s.held.Some? then [Sent(FirstFrame(s, s.held.value))] else []
    case Deliver(MessageReceived(id, conveyor)) =>
      if s.waiting && s.waitingId == id && s.waitingConveyor == conveyor then [Acked(id)] else []
    case Deliver(StateResponse(conveyor, available)) =>
      if s.waiting && s.waitingId == CONVEYOR_STATE_RESPONSE_ID && s.waitingConveyor == conveyor then
        [Availability(conveyor, available)] + InputNotes(s, conveyor, available)
      else []
    case Deliver(ClearResponse(box, packages)) =>
      if s.waiting && s.waitingId == CLEAR_BOX_RESPONSE_ID then [Forwarded(ReportCleared(box, packages))] else []
    case Deliver(PackageArrived(box, pkg)) => [Forwarded(ReportArrived(box, pkg))]
    case DriverHandles =>
      if s.taking && s.pending.Some? then [Sent(FrameOf(s.pending.value, s.timestamp))] else []
    case _ => []
  }

  function InputNotes(s: Link, conveyor: int, available: bool): seq<Note> {
    if s.pendingInput.None? then []
    else [Sent(FrameOf(if available then s.pendingInput.value else Poll(conveyor), Low(s.timestamp + 1)))]
  }

  // ---- the simple machine the link refines ----

  datatype Phase = Idle | Holding(msg: Message) | Polling(msg: Message) | Awaiting(msg: Message)

  function ReplyId(id: int): int {
    if id == CLEAR_BOX_ID then CLEAR_BOX_RESPONSE_ID else id
  }

  /** The reply that completes a message. */
  predicate Completes(r: Response, m: Message) {
    || (r.MessageReceived? && r.id == ReplyId(m.id) && r.conveyor == m.conveyor)
    || (r.ClearResponse? && m.id == CLEAR_BOX_ID)
  }

  /** One message at a time: pop it, poll for it if it adds a package, send it, wait for its reply. */
  function NextPhase(p: Phase, tx: seq<Message>, e: Event): Phase {
    match p
    case Idle => if e.Pop? && tx != [] then Holding(tx[0]) else p
    case Holding(m) => if !e.Dispatch? then p else if m.id == ADD_PACKAGE_ID then Polling(m) else Awaiting(m)
    case Polling(m) =>
      if e.Deliver? && e.response.StateResponse? && e.response.available && e.response.conveyor == m.conveyor
      then Awaiting(m) else p
    case Awaiting(m) => if e.Deliver? && Completes(e.response, m) then Idle else p
  }

  /** The server's fields when nothing is outstanding. */
  predicate Quiet(s: Link) {
    && !s.waiting && s.waitingId == -1 && s.waitingConveyor == EMPTY_CONVEYOR_ID
    && s.pending.None? && s.pendingInput.None? && !s.checking
  }

  /** All of the server's and the queue handler's fields, as the phase determines them. */
  predicate InPhase(s: Link, p: Phase) {
    match p
    case Idle => s.flow == CONTINUE && s.held.None? && Quiet(s)
    case Holding(m) => s.flow == STOP && s.held == Some(m) && Quiet(s) && Queueable(m)
    case Polling(m) =>
      && s.flow == STOP && s.held.None? && Queueable(m) && m.id == ADD_PACKAGE_ID
      && s.checking && s.pendingInput == Some(m)
      && s.waiting && s.waitingId == CONVEYOR_STATE_RESPONSE_ID && s.waitingConveyor == m.conveyor
      && s.pending == Some(Poll(m.conveyor))
    case Awaiting(m) =>
      && s.flow == STOP && s.held.None? && Queueable(m)
      && !s.checking && s.pendingInput.None?
      && s.waiting && s.waitingId == ReplyId(m.id) && s.waitingConveyor == m.conveyor
      && s.pending == Some(m)
  }

  /** The phase, read off the fields. */
  function PhaseOf(s: Link): Phase {
    if s.held.Some? then Holding(s.held.value)
    else if !s.waiting then Idle
    else if s.checking && s.pendingInput.Some? then Polling(s.pendingInput.value)
    else if s.pending.Some? then Awaiting(s.pending.value)
    else Idle
  }

  /** While a reply is awaited, a retransmission is still on its way. */
  predicate RetryArmed(s: Link) {
    s.waiting ==> s.running || s.stage == RAISING || s.timedOut || s.taking
  }

  ghost predicate LinkInv(s: Link) {
    && InPhase(s, PhaseOf(s))
    && RetryArmed(s)
    && (forall i :: 0 <= i < |s.tx| ==> Queueable(s.tx[i]))
  }

  /** A MESSAGE_RECEIVED that names the id of the state response being polled for. */
  predicate AcksPoll(s: Link, e: Event) {
    && e.Deliver? && e.response.MessageReceived? && e.response.id == CONVEYOR_STATE_RESPONSE_ID
    && s.waiting && s.waitingId == CONVEYOR_STATE_RESPONSE_ID && s.waitingConveyor == e.response.conveyor
  }

  predicate BuiltByHandler(e: Event) {
    e.Enqueue? ==> Queueable(e.msg)
  }

  predicate AllBuilt(es: seq<Event>) {
    forall i :: 0 <= i < |es| ==> BuiltByHandler(es[i])
  }

  /** No step of the run acknowledges a poll. */
  predicate NoPollAcked(s: Link, es: seq<Event>)
    decreases |es|
  {
    es != [] ==> !AcksPoll(s, es[0]) && NoPollAcked(Step(s, es[0]), es[1..])
  }

  /** Stopped for good: nothing is awaited, nothing can time out, and the flow is not resumed. */
  predicate Wedged(s: Link) {
    s.flow == STOP && s.held.None? && !s.waiting && s.pending.None? && s.checking
  }

  /** Holds in every reachable state, acknowledged polls included. */
  ghost predicate SafeInv(s: Link) {
    LinkInv(s) || Wedged(s)
  }

  /** The messages that a run puts into the queue. */
  function Enqueued(es: seq<Event>): seq<Message> {
    if es == [] then [] else (if es[0].Enqueue? then [es[0].msg] else []) + Enqueued(es[1..])
  }
}
