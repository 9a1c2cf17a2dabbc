/** What the conveyors receive: the trace of frames, against the messages taken from the queue. */
module LinkTrace {
  import opened CentralTypes
  import opened Messages
  import opened Links
  import opened LinkProofs

  // ---- observations ----

  function Wire(log: seq<Note>): seq<Frame> {
    if log == [] then [] else
    var n := |log| - 1;
    Wire(log[..n]) + if log[n].Sent? then [log[n].frame] else []
  }

  function PoppedMsgs(log: seq<Note>): seq<Message> {
    if log == [] then [] else
    var n := |log| - 1;
    PoppedMsgs(log[..n]) + if log[n].Popped? then [log[n].msg] else []
  }

  /** A receiver that ignores a frame carrying the same timestamp as the previous one. */
  function Collapse(w: seq<Frame>): seq<Frame> {
    if w == [] then [] else
    var n := |w| - 1;
    if n > 0 && w[n].time == w[n - 1].time then Collapse(w[..n]) else Collapse(w[..n]) + [w[n]]
  }

  /** The commands among the frames: everything but availability polls, without timestamps. */
  function CommandsIn(w: seq<Frame>): seq<Frame> {
    if w == [] then [] else
    var n := |w| - 1;
    CommandsIn(w[..n]) + if w[n].id == CONVEYOR_STATE_ID then [] else [w[n].(time := 0)]
  }

  function Bodies(msgs: seq<Message>): seq<Frame> {
    seq(|msgs|, i requires 0 <= i < |msgs| => FrameOf(msgs[i], 0))
  }

  function Delivered(log: seq<Note>): seq<Frame> {
    CommandsIn(Collapse(Wire(log)))
  }

  /** What was popped but not yet sent: at most one message, held or waiting for its conveyor. */
  function Gap(s: Link): seq<Frame> {
    if s.held.Some? then [FrameOf(s.held.value, 0)]
    else if s.pendingInput.Some? then [FrameOf(s.pendingInput.value, 0)]
    else []
  }

  /** The reports among the observations, in order. */
  function ReportsIn(notes: seq<Note>): seq<Report> {
    if notes == [] then [] else (if notes[0].Forwarded? then [notes[0].report] else []) + ReportsIn(notes[1..])
  }

  lemma {:induction false} NoReports(notes: seq<Note>)
    requires forall i :: 0 <= i < |notes| ==> !notes[i].Forwarded?
    ensures ReportsIn(notes) == []
  {
    if notes != [] {
      NoReports(notes[1..]);
    }
  }

  // ---- how the observations grow ----

  lemma WireGrows(log: seq<Note>, note: Note)
    ensures Wire(log + [note]) == if note.Sent? then Wire(log) + [note.frame] else Wire(log)
    ensures PoppedMsgs(log + [note]) == if note.Popped? then PoppedMsgs(log) + [note.msg] else PoppedMsgs(log)
  {
  }

  lemma CollapseGrows(w: seq<Frame>, f: Frame)
    ensures Collapse(w + [f]) ==
      if w != [] && w[|w| - 1].time == f.time then Collapse(w) else Collapse(w) + [f]
  {
  }

  lemma CommandsGrow(w: seq<Frame>, f: Frame)
    ensures CommandsIn(w + [f]) == CommandsIn(w) + if f.id == CONVEYOR_STATE_ID then [] else [f.(time := 0)]
  {
  }

  // ---- timestamps ----

  /** Distinct sends are numbered consecutively modulo 256; equal neighbours are exact repetitions. */
  ghost predicate Numbered(w: seq<Frame>, timestamp: byte) {
    && (w == [] ==> timestamp == 0)
    && (w != [] ==> w[|w| - 1].time == timestamp)
    && |Collapse(w)| % 256 == timestamp
    && (forall k :: 0 <= k < |Collapse(w)| ==> Collapse(w)[k].time == (k + 1) % 256)
    && (forall i :: 0 < i < |w| && w[i].time == w[i - 1].time ==> w[i] == w[i - 1])
  }

  /** The pending message is the one last sent. */
  ghost predicate PendingLast(s: Link) {
    var w := Wire(s.log);
    s.pending.Some? ==> w != [] && w[|w| - 1] == FrameOf(s.pending.value, s.timestamp)
  }

  lemma FreshKeepsNumbered(w: seq<Frame>, timestamp: byte, f: Frame)
    requires Numbered(w, timestamp) && f.time == (timestamp + 1) % 256
    ensures Numbered(w + [f], f.time) && Collapse(w + [f]) == Collapse(w) + [f]
  {
    CollapseGrows(w, f);
    var c := Collapse(w);
    NextTimestamp(|c|, timestamp);
    assert f.time != timestamp;
    forall k | 0 <= k < |c + [f]|
      ensures (c + [f])[k].time == (k + 1) % 256
    {
      assert k < |c| ==> (c + [f])[k] == c[k];
    }
    forall i | 0 < i < |w + [f]| && (w + [f])[i].time == (w + [f])[i - 1].time
      ensures (w + [f])[i] == (w + [f])[i - 1]
    {
      assert i < |w|;
    }
  }

  lemma NextTimestamp(n: nat, t: byte)
    requires n % 256 == t
    ensures (n + 1) % 256 == (t + 1) % 256 != t
  {
  }

  lemma RepeatKeepsNumbered(w: seq<Frame>, timestamp: byte, f: Frame)
    requires Numbered(w, timestamp) && w != [] && f == w[|w| - 1]
    ensures Numbered(w + [f], timestamp) && Collapse(w + [f]) == Collapse(w)
  {
  }

  // ---- the trace invariant ----

  ghost predicate TraceInv(s: Link) {
    && Numbered(Wire(s.log), s.timestamp)
    && PendingLast(s)
    && Bodies(PoppedMsgs(s.log)) == Delivered(s.log) + Gap(s)
  }

  lemma NoteKeeps(log: seq<Note>, note: Note)
    requires !note.Sent? && !note.Popped?
    ensures Wire(log + [note]) == Wire(log) && PoppedMsgs(log + [note]) == PoppedMsgs(log)
    ensures Delivered(log + [note]) == Delivered(log)
  {
  }

  /** A fresh send: one more distinct frame, which is a command unless it is a poll. */
  lemma FreshSend(s: Link, m: Message)
    requires Numbered(Wire(s.log), s.timestamp) && (m.id == CONVEYOR_STATE_ID || Queueable(m))
    ensures var s' := SendFresh(s, m);
      && Numbered(Wire(s'.log), s'.timestamp) && PendingLast(s')
      && PoppedMsgs(s'.log) == PoppedMsgs(s.log)
      && Delivered(s'.log) == Delivered(s.log) + if m.id == CONVEYOR_STATE_ID then [] else [FrameOf(m, 0)]
  {
    var f := FrameOf(m, Low(s.timestamp + 1));
    WireGrows(s.log, Sent(f));
    FreshKeepsNumbered(Wire(s.log), s.timestamp, f);
    CommandsGrow(Collapse(Wire(s.log)), f);
  }

  /** A timeout repeats the frame sent last, timestamp included, or does nothing if none is pending. */
  lemma Retransmission(s: Link)
    requires Numbered(Wire(s.log), s.timestamp) && PendingLast(s)
    ensures var w, s' := Wire(s.log), TimedOut(s);
      && s'.timestamp == s.timestamp
      && (s.pending.None? ==> Wire(s'.log) == w)
      && (s.pending.Some? ==> w != [] && Wire(s'.log) == w + [w[|w| - 1]])
      && Numbered(Wire(s'.log), s'.timestamp) && PendingLast(s')
      && PoppedMsgs(s'.log) == PoppedMsgs(s.log) && Delivered(s'.log) == Delivered(s.log)
  {
    if s.pending.Some? {
      var f := FrameOf(s.pending.value, s.timestamp);
      WireGrows(s.log, Sent(f));
      RepeatKeepsNumbered(Wire(s.log), s.timestamp, f);
    }
  }

  lemma BodiesGrow(msgs: seq<Message>, m: Message)
    ensures Bodies(msgs + [m]) == Bodies(msgs) + [FrameOf(m, 0)]
  {
  }

  /** A safe link that lets the flow continue has nothing popped and unsent. */
  lemma ContinuingHasNoGap(s: Link)
    requires SafeInv(s) && s.flow == CONTINUE
    ensures Gap(s) == []
  {
  }

  lemma PopTraced(s: Link)
    requires SafeInv(s) && TraceInv(s)
    ensures TraceInv(Step(s, Pop))
  {
    if CanPop(s) {
      ContinuingHasNoGap(s);
      WireGrows(s.log, Popped(s.tx[0]));
      BodiesGrow(PoppedMsgs(s.log), s.tx[0]);
    }
  }

  /** Handing a message to the server puts it on the air, or a poll if it adds a package. */
  lemma SendAntEffect(s: Link, m: Message)
    requires Numbered(Wire(s.log), s.timestamp) && Queueable(m)
    ensures var s' := SendAnt(s, m);
      && Numbered(Wire(s'.log), s'.timestamp) && PendingLast(s')
      && PoppedMsgs(s'.log) == PoppedMsgs(s.log)
      && Delivered(s'.log) == Delivered(s.log) + (if m.id == ADD_PACKAGE_ID then [] else [FrameOf(m, 0)])
      && s'.held == s.held && s'.pendingInput == if m.id == ADD_PACKAGE_ID then Some(m) else s.pendingInput
  {
    if m.id == ADD_PACKAGE_ID {
      FreshSend(AwaitReply(s.(pendingInput := Some(m), checking := true), CONVEYOR_STATE_RESPONSE_ID, m.conveyor),
                Poll(m.conveyor));
    } else {
      FreshSend(AwaitReply(s, ReplyId(m.id), m.conveyor), m);
    }
  }

  /** An availability report for the message being polled for sends it, or polls again. */
  lemma InputStateEffect(s: Link, conveyor: int, available: bool)
    requires Numbered(Wire(s.log), s.timestamp) && s.pendingInput.Some?
    requires Queueable(s.pendingInput.value)
    ensures var s' := InputState(s, conveyor, available);
      && Numbered(Wire(s'.log), s'.timestamp) && PendingLast(s')
      && PoppedMsgs(s'.log) == PoppedMsgs(s.log)
      && Delivered(s'.log) == Delivered(s.log) + (if available then [FrameOf(s.pendingInput.value, 0)] else [])
      && s'.held == s.held && s'.pendingInput == if available then None else s.pendingInput
  {
    if available {
      FreshSend(AwaitReply(s.(checking := false), ADD_PACKAGE_ID, conveyor), s.pendingInput.value);
    } else {
      FreshSend(AwaitReply(s, CONVEYOR_STATE_RESPONSE_ID, conveyor), Poll(conveyor));
    }
  }

  lemma HeldIsOnlyGap(s: Link)
    requires SafeInv(s) && s.held.Some?
    ensures s.pendingInput.None? && Queueable(s.held.value)
  {
  }

  lemma DispatchTraced(s: Link)
    requires SafeInv(s) && TraceInv(s)
    ensures TraceInv(Step(s, Dispatch))
  {
    if s.held.Some? {
      HeldIsOnlyGap(s);
      SendAntEffect(s.(held := None), s.held.value);
    }
  }

  /** What a safe link that awaits a state response is polling for. */
  lemma PolledIsOnlyGap(s: Link)
    requires SafeInv(s) && s.waiting && s.waitingId == CONVEYOR_STATE_RESPONSE_ID
    ensures s.held.None? && s.pendingInput.Some? && Queueable(s.pendingInput.value)
  {
  }

  /** A step that only adds an observation. */
  lemma ObservationTraced(s: Link, s': Link, note: Note)
    requires TraceInv(s) && !note.Sent? && !note.Popped?
    requires s'.log == s.log + [note] && s'.timestamp == s.timestamp
    requires s'.pending == s.pending || s'.pending == None
    requires s'.held == s.held && s'.pendingInput == s.pendingInput
    ensures TraceInv(s')
  {
    NoteKeeps(s.log, note);
  }

  lemma InputStateTraced(s: Link, conveyor: int, available: bool)
    requires TraceInv(s) && s.held.None? && s.pendingInput.Some? && Queueable(s.pendingInput.value)
    ensures TraceInv(InputState(s, conveyor, available))
  {
    InputStateEffect(s, conveyor, available);
  }

  lemma StateResponseTraced(s: Link, conveyor: byte, available: bool)
    requires SafeInv(s) && TraceInv(s)
    ensures TraceInv(Receive(s, StateResponse(conveyor, available)))
  {
    if s.waiting && s.waitingId == CONVEYOR_STATE_RESPONSE_ID && s.waitingConveyor == conveyor {
      PolledIsOnlyGap(s);
      var note := Availability(conveyor, available);
      var t := s.(running := false, log := s.log + [note]);
      ObservationTraced(s, t, note);
      InputStateTraced(t, conveyor, available);
    }
  }

  lemma AckTraced(s: Link, id: byte, conveyor: byte)
    requires TraceInv(s)
    ensures TraceInv(Receive(s, MessageReceived(id, conveyor)))
  {
    if s.waiting && s.waitingId == id && s.waitingConveyor == conveyor {
      ObservationTraced(s, Receive(s, MessageReceived(id, conveyor)), Acked(id));
    }
  }

  lemma ClearTraced(s: Link, box: byte, packages: set<int>)
    requires TraceInv(s)
    ensures TraceInv(Receive(s, ClearResponse(box, packages)))
  {
    if s.waiting && s.waitingId == CLEAR_BOX_RESPONSE_ID {
      ObservationTraced(s, Receive(s, ClearResponse(box, packages)), Forwarded(ReportCleared(box, packages)));
    }
  }

  lemma DeliverTraced(s: Link, r: Response)
    requires SafeInv(s) && TraceInv(s)
    ensures TraceInv(Receive(s, r))
  {
    match r
    case MessageReceived(id, conveyor) => AckTraced(s, id, conveyor);
    case StateResponse(conveyor, available) => StateResponseTraced(s, conveyor, available);
    case ClearResponse(box, packages) => ClearTraced(s, box, packages);
    case PackageArrived(box, pkg) =>
      ObservationTraced(s, Receive(s, r), Forwarded(ReportArrived(box, pkg)));
    case UnknownResponse(_) =>
  }

  /** A step that touches nothing the trace depends on. */
  lemma SilentTraced(s: Link, s': Link)
    requires TraceInv(s)
    requires s'.log == s.log && s'.timestamp == s.timestamp && s'.pending == s.pending
    requires s'.held == s.held && s'.pendingInput == s.pendingInput
    ensures TraceInv(s')
  {
  }

  lemma HandleTraced(s: Link)
    requires TraceInv(s)
    ensures TraceInv(Step(s, DriverHandles))
  {
    if s.taking {
      Retransmission(s.(taking := false));
    }
  }

  predicate IsSilent(e: Event) {
    e.Enqueue? || e.TimerExpires? || e.TimerCommits? || e.TimerClears? || e.TimerRaises? || e.DriverTakes?
  }

  lemma SilentStep(s: Link, e: Event)
    requires IsSilent(e)
    ensures var s' := Step(s, e);
      && s'.log == s.log && s'.timestamp == s.timestamp && s'.pending == s.pending
      && s'.held == s.held && s'.pendingInput == s.pendingInput
  {
    match e
    case Enqueue(_) =>
    case TimerExpires =>
    case TimerCommits =>
    case TimerClears =>
    case TimerRaises =>
    case DriverTakes =>
  }

  lemma StepTraced(s: Link, e: Event)
    requires SafeInv(s) && TraceInv(s)
    ensures TraceInv(Step(s, e))
  {
    match e
    case Pop => PopTraced(s);
    case Dispatch => DispatchTraced(s);
    case Deliver(r) => DeliverTraced(s, r);
    case DriverHandles => HandleTraced(s);
    case _ =>
      SilentStep(s, e);
      SilentTraced(s, Step(s, e));
  }

  // ---- first in, first out ----

  lemma {:induction false} PoppedConcat(a: seq<Note>, b: seq<Note>)
    ensures PoppedMsgs(a + b) == PoppedMsgs(a) + PoppedMsgs(b)
  {
    if b == [] {
      assert a + b == a;
    } else {
      var n := |b| - 1;
      PoppedConcat(a, b[..n]);
      assert (a + b)[..|a + b| - 1] == a + b[..n];
    }
  }

  lemma StepIsFifo(s: Link, e: Event)
    ensures PoppedMsgs(Step(s, e).log) + Step(s, e).tx == PoppedMsgs(s.log) + s.tx + Enqueued([e])
  {
    assert PoppedMsgs(Step(s, e).log) == PoppedMsgs(s.log) + if e.Pop? && CanPop(s) then [s.tx[0]] else [] by {
      StepAddsNotes(s, e);
      PoppedConcat(s.log, NotesOf(s, e));
      NotesPopped(s, e);
    }
    QueueAfter(s, e);
    assert Enqueued([e]) == if e.Enqueue? then [e.msg] else [];
    if e.Pop? && CanPop(s) {
      assert s.tx == [s.tx[0]] + s.tx[1..];
    }
  }

  lemma NotesPopped(s: Link, e: Event)
    ensures PoppedMsgs(NotesOf(s, e)) == if e.Pop? && CanPop(s) then [s.tx[0]] else []
  {
    if e.Deliver? {
      NoPops(NotesOf(s, e));
    }
  }

  lemma {:induction false} NoPops(notes: seq<Note>)
    requires forall i :: 0 <= i < |notes| ==> !notes[i].Popped?
    ensures PoppedMsgs(notes) == []
  {
    if notes != [] {
      NoPops(notes[..|notes| - 1]);
    }
  }

  /** Messages leave the queue in the order they entered it, whatever else happens. */
  lemma {:induction false} QueueIsFifo(s: Link, es: seq<Event>)
    ensures PoppedMsgs(Run(s, es).log) + Run(s, es).tx == PoppedMsgs(s.log) + s.tx + Enqueued(es)
    decreases |es|
  {
    if es != [] {
      StepIsFifo(s, es[0]);
      QueueIsFifo(Step(s, es[0]), es[1..]);
      assert Enqueued(es) == Enqueued([es[0]]) + Enqueued(es[1..]);
    }
  }

  // ---- whole runs ----

  lemma {:induction false} RunTraced(s: Link, es: seq<Event>)
    requires SafeInv(s) && TraceInv(s) && AllBuilt(es)
    ensures SafeInv(Run(s, es)) && TraceInv(Run(s, es))
    decreases |es|
  {
    if es != [] {
      BuiltTail(es);
      StepSafe(s, es[0]);
      StepTraced(s, es[0]);
      RunTraced(Step(s, es[0]), es[1..]);
    }
  }

  lemma BodiesConcat(a: seq<Message>, b: seq<Message>)
    ensures Bodies(a + b) == Bodies(a) + Bodies(b)
  {
  }

  /**
   No loss, duplication or reordering, over every interleaving since start-up:
   the commands that a receiver gets after ignoring repeated timestamps, then the
   message popped but not yet sent (if any), then those still queued, are exactly
   the messages enqueued, in order.
   */
  lemma EverythingOnceInOrder(es: seq<Event>)
    requires AllBuilt(es)
    ensures var s := Run(INIT, es);
      Delivered(s.log) + Gap(s) + Bodies(s.tx) == Bodies(Enqueued(es))
  {
    RunTraced(INIT, es);
    QueueIsFifo(INIT, es);
    var s := Run(INIT, es);
    BodiesConcat(PoppedMsgs(s.log), s.tx);
    assert PoppedMsgs(INIT.log) + INIT.tx + Enqueued(es) == Enqueued(es);
  }

  /**
   The k-th distinct send carries timestamp k modulo 256, so any 256 consecutive
   ones differ; a frame with its predecessor's timestamp repeats it exactly.
   */
  ghost predicate TimestampsSound(w: seq<Frame>) {
    && (forall k :: 0 <= k < |Collapse(w)| ==> Collapse(w)[k].time == (k + 1) % 256)
    && (forall i, j :: 0 <= i < j < |Collapse(w)| && j - i < 256 ==> Collapse(w)[i].time != Collapse(w)[j].time)
    && (forall i :: 0 < i < |w| && w[i].time == w[i - 1].time ==> w[i] == w[i - 1])
  }

  lemma NumberedIsSound(w: seq<Frame>, timestamp: byte)
    requires Numbered(w, timestamp)
    ensures TimestampsSound(w)
  {
  }

  lemma RunNumbered(es: seq<Event>)
    requires AllBuilt(es)
    ensures Numbered(Wire(Run(INIT, es).log), Run(INIT, es).timestamp)
  {
    RunTraced(INIT, es);
  }

  /** Timestamps are sound over every interleaving since start-up, in spite of the 8-bit wrap. */
  lemma TimestampsDistinct(es: seq<Event>)
    requires AllBuilt(es)
    ensures TimestampsSound(Wire(Run(INIT, es).log))
  {
    RunNumbered(es);
    NumberedIsSound(Wire(Run(INIT, es).log), Run(INIT, es).timestamp);
  }
}
