/** The timer: it runs only while a reply is awaited, and every retransmission uses up an expiry of its own. */
module LinkTimer {
  import opened CentralTypes
  import opened Messages
  import opened Links
  import opened LinkProofs

  /** The timer runs only while a reply is awaited, and is past its check only after it expired. */
  predicate TimerInv(s: Link) {
    (s.running ==> s.waiting) && (s.stage == EXPIRING ==> s.expired)
  }

  lemma SendKeepsTimer(s: Link, id: int, conveyor: int, m: Message)
    requires s.stage == EXPIRING ==> s.expired
    ensures TimerInv(SendFresh(AwaitReply(s, id, conveyor), m))
  {
  }

  lemma DispatchKeepsTimer(s: Link)
    requires TimerInv(s)
    ensures TimerInv(Step(s, Dispatch))
  {
    if s.held.Some? {
      var t, m := s.(held := None), s.held.value;
      if m.id == ADD_PACKAGE_ID {
        SendKeepsTimer(t.(pendingInput := Some(m), checking := true), CONVEYOR_STATE_RESPONSE_ID, m.conveyor,
                       Poll(m.conveyor));
      } else {
        SendKeepsTimer(t, ReplyId(m.id), m.conveyor, m);
      }
    }
  }

  lemma ReceiveKeepsTimer(s: Link, r: Response)
    requires TimerInv(s)
    ensures TimerInv(Receive(s, r))
  {
    match r
    case StateResponse(c, a) =>
      var t := s.(running := false, log := s.log + [Availability(c, a)]);
      if t.pendingInput.Some? {
        SendKeepsTimer(t.(checking := false), ADD_PACKAGE_ID, c, t.pendingInput.value);
        SendKeepsTimer(t, CONVEYOR_STATE_RESPONSE_ID, c, Poll(c));
      }
    case _ =>
  }

  lemma StepKeepsTimer(s: Link, e: Event)
    requires TimerInv(s) && SafeInv(s)
    ensures TimerInv(Step(s, e))
  {
    match e
    case Dispatch => DispatchKeepsTimer(s);
    case Deliver(r) => ReceiveKeepsTimer(s, r);
    case _ =>
  }

  // ---- retransmissions ----

  /** The timer expires: it was watching, had not expired before, and runs. */
  predicate Expires(s: Link, e: Event) {
    e.TimerExpires? && s.stage == WATCHING && s.running && !s.expired
  }

  /** The timer thread passes its check. */
  predicate Commits(s: Link, e: Event) {
    s.stage == WATCHING && Step(s, e).stage == EXPIRING
  }

  /** Every expiry and every passed check of the run falls in a time when a reply is awaited. */
  predicate OnlyWhileAwaiting(s: Link, es: seq<Event>)
    decreases |es|
  {
    es != [] ==>
      && (Expires(s, es[0]) || Commits(s, es[0]) ==> s.waiting)
      && OnlyWhileAwaiting(Step(s, es[0]), es[1..])
  }

  lemma {:induction false} RunOnlyWhileAwaiting(s: Link, es: seq<Event>)
    requires SafeInv(s) && TimerInv(s) && AllBuilt(es)
    ensures OnlyWhileAwaiting(s, es)
    decreases |es|
  {
    if es != [] {
      BuiltTail(es);
      StepSafe(s, es[0]);
      StepKeepsTimer(s, es[0]);
      CommitNeedsAwaiting(s, es[0]);
      RunOnlyWhileAwaiting(Step(s, es[0]), es[1..]);
    }
  }

  lemma CommitNeedsAwaiting(s: Link, e: Event)
    requires TimerInv(s)
    ensures Commits(s, e) ==> s.waiting
  {
    match e
    case TimerCommits =>
    case Dispatch => StageAfterDispatch(s);
    case Deliver(r) => StageAfterReceive(s, r);
    case Enqueue(_) =>
    case Pop =>
    case TimerExpires =>
    case TimerClears =>
    case TimerRaises =>
    case DriverTakes =>
    case DriverHandles =>
  }

  lemma StageAfterDispatch(s: Link)
    ensures Step(s, Dispatch).stage == s.stage
  {
  }

  lemma StageAfterReceive(s: Link, r: Response)
    ensures Receive(s, r).stage == s.stage
  {
    match r
    case StateResponse(c, a) => StageAfterState(s.(running := false, log := s.log + [Availability(c, a)]), c, a);
    case _ =>
  }

  lemma StageAfterState(s: Link, conveyor: int, available: bool)
    ensures InputState(s, conveyor, available).stage == s.stage
  {
  }

  /** A timeout can only begin while a reply is awaited: once the reply came, a stopped timer starts none. */
  lemma TimeoutsBeginWhileAwaiting(es: seq<Event>)
    requires AllBuilt(es)
    ensures OnlyWhileAwaiting(INIT, es)
  {
    RunOnlyWhileAwaiting(INIT, es);
  }

  /** The driver sends a frame again. */
  predicate Retransmits(s: Link, e: Event) {
    e.DriverHandles? && NotesOf(s, e) != []
  }

  function Expiries(s: Link, es: seq<Event>): nat
    decreases |es|
  {
    if es == [] then 0 else (if Expires(s, es[0]) then 1 else 0) + Expiries(Step(s, es[0]), es[1..])
  }

  function Retransmissions(s: Link, es: seq<Event>): nat
    decreases |es|
  {
    if es == [] then 0 else (if Retransmits(s, es[0]) then 1 else 0) + Retransmissions(Step(s, es[0]), es[1..])
  }

  /** Expiries on their way to a retransmission. */
  function Owed(s: Link): nat {
    (if s.expired then 1 else 0) + (if s.stage == RAISING then 1 else 0) + (if s.timedOut then 1 else 0)
    + (if s.taking then 1 else 0)
  }

  lemma HandlersOweNothing(s: Link, e: Event)
    requires e.Enqueue? || e.Pop? || e.Dispatch? || e.Deliver?
    ensures Owed(Step(s, e)) == Owed(s)
  {
    match e
    case Enqueue(_) =>
    case Pop =>
    case Dispatch =>
      if s.held.Some? {
        SendAntOwesNothing(s.(held := None), s.held.value);
      }
    case Deliver(r) => ReceiveOwesNothing(s, r);
  }

  lemma SendOwesNothing(s: Link, id: int, conveyor: int, m: Message)
    ensures Owed(SendFresh(AwaitReply(s, id, conveyor), m)) == Owed(s)
  {
  }

  lemma SendAntOwesNothing(s: Link, m: Message)
    ensures Owed(SendAnt(s, m)) == Owed(s)
  {
    if m.id == ADD_PACKAGE_ID {
      SendOwesNothing(s.(pendingInput := Some(m), checking := true), CONVEYOR_STATE_RESPONSE_ID, m.conveyor,
                      Poll(m.conveyor));
    } else {
      SendOwesNothing(s, ReplyId(m.id), m.conveyor, m);
    }
  }

  lemma ReceiveOwesNothing(s: Link, r: Response)
    ensures Owed(Receive(s, r)) == Owed(s)
  {
  }

  lemma ThreadsOwe(s: Link, e: Event)
    requires TimerInv(s) && Internal(e)
    ensures Owed(Step(s, e)) + (if Retransmits(s, e) then 1 else 0) <= Owed(s) + if Expires(s, e) then 1 else 0
  {
    match e
    case TimerExpires =>
    case TimerCommits =>
    case TimerClears =>
    case TimerRaises =>
    case DriverTakes =>
    case DriverHandles =>
  }

  /** No expiry gets lost on its way but in raising a flag that is still up. */
  lemma OnlyRaisingMerges(s: Link, e: Event)
    requires TimerInv(s) && (e.TimerCommits? || e.TimerClears? || e.DriverTakes?)
    ensures Owed(Step(s, e)) == Owed(s)
    ensures Owed(Step(s, TimerRaises)) == if s.stage == RAISING && s.timedOut then Owed(s) - 1 else Owed(s)
  {
    match e
    case TimerCommits =>
    case TimerClears =>
    case DriverTakes =>
  }

  lemma {:induction false} RunOwes(s: Link, es: seq<Event>)
    requires SafeInv(s) && TimerInv(s) && AllBuilt(es)
    ensures TimerInv(Run(s, es))
    ensures Retransmissions(s, es) + Owed(Run(s, es)) <= Owed(s) + Expiries(s, es)
    decreases |es|
  {
    if es != [] {
      BuiltTail(es);
      StepSafe(s, es[0]);
      StepKeepsTimer(s, es[0]);
      if Internal(es[0]) {
        ThreadsOwe(s, es[0]);
      } else {
        HandlersOweNothing(s, es[0]);
      }
      RunOwes(Step(s, es[0]), es[1..]);
    }
  }

  /**
   Over every run since start-up, no frame is sent again but on an expiry of the
   timer, and no expiry sends two; the timer only runs while a reply is awaited.
   */
  lemma RetransmissionsNeedExpiries(es: seq<Event>)
    requires AllBuilt(es)
    ensures Retransmissions(INIT, es) <= Expiries(INIT, es)
    ensures Run(INIT, es).running ==> Run(INIT, es).waiting
  {
    RunOwes(INIT, es);
  }
}
