/** Safety of the link over every interleaving, and exactly when it can stop for good. */
module LinkProofs {
  import opened CentralTypes
  import opened Messages
  import opened Links

  // ---- the phase invariant ----

  lemma IdleStep(s: Link, e: Event)
    requires InPhase(s, Idle) && (s.tx != [] ==> Queueable(s.tx[0]))
    ensures InPhase(Step(s, e), NextPhase(Idle, s.tx, e))
  {
  }

  lemma HoldingStep(s: Link, e: Event, m: Message)
    requires InPhase(s, Holding(m))
    ensures InPhase(Step(s, e), NextPhase(Holding(m), s.tx, e))
  {
  }

  lemma PollingStep(s: Link, e: Event, m: Message)
    requires InPhase(s, Polling(m)) && !AcksPoll(s, e)
    ensures InPhase(Step(s, e), NextPhase(Polling(m), s.tx, e))
  {
  }

  lemma AwaitingStep(s: Link, e: Event, m: Message)
    requires InPhase(s, Awaiting(m))
    ensures InPhase(Step(s, e), NextPhase(Awaiting(m), s.tx, e))
  {
    match e
    case Deliver(r) => AwaitingReceive(s, r, m);
    case _ =>
  }

  lemma AwaitingReceive(s: Link, r: Response, m: Message)
    requires InPhase(s, Awaiting(m))
    ensures InPhase(Receive(s, r), if Completes(r, m) then Idle else Awaiting(m))
  {
  }

  lemma PhaseIsUnique(s: Link, p: Phase)
    requires InPhase(s, p)
    ensures PhaseOf(s) == p
  {
  }

  lemma StepKeepsRetry(s: Link, e: Event)
    requires RetryArmed(s) && InPhase(s, PhaseOf(s))
    ensures RetryArmed(Step(s, e))
  {
    match e
    case Deliver(r) => ReceiveKeepsRetry(s, r);
    case _ =>
  }

  lemma ReceiveKeepsRetry(s: Link, r: Response)
    requires RetryArmed(s) && InPhase(s, PhaseOf(s))
    ensures RetryArmed(Receive(s, r))
  {
  }

  lemma QueueAfter(s: Link, e: Event)
    ensures Step(s, e).tx == match e
      case Enqueue(m) => s.tx + [m]
      case Pop => if CanPop(s) then s.tx[1..] else s.tx
      case _ => s.tx
  {
    match e
    case Deliver(r) => ReceiveKeepsTx(s, r);
    case _ =>
  }

  lemma ReceiveKeepsTx(s: Link, r: Response)
    ensures Receive(s, r).tx == s.tx
  {
    match r
    case StateResponse(c, a) => InputStateKeepsTx(s.(running := false, log := s.log + [Availability(c, a)]), c, a);
    case _ =>
  }

  lemma InputStateKeepsTx(s: Link, conveyor: int, available: bool)
    ensures InputState(s, conveyor, available).tx == s.tx
  {
  }

  lemma StepKeepsQueue(s: Link, e: Event)
    requires BuiltByHandler(e) && forall i :: 0 <= i < |s.tx| ==> Queueable(s.tx[i])
    ensures forall i :: 0 <= i < |Step(s, e).tx| ==> Queueable(Step(s, e).tx[i])
  {
    QueueAfter(s, e);
  }

  /** The link refines the one-message-at-a-time machine, and never loses its retransmission. */
  lemma StepRefines(s: Link, e: Event)
    requires LinkInv(s) && BuiltByHandler(e) && !AcksPoll(s, e)
    ensures LinkInv(Step(s, e))
    ensures PhaseOf(Step(s, e)) == NextPhase(PhaseOf(s), s.tx, e)
  {
    match PhaseOf(s) {
      case Idle => IdleStep(s, e);
      case Holding(m) => HoldingStep(s, e, m);
      case Polling(m) => PollingStep(s, e, m);
      case Awaiting(m) => AwaitingStep(s, e, m);
    }
    PhaseIsUnique(Step(s, e), NextPhase(PhaseOf(s), s.tx, e));
    StepKeepsRetry(s, e);
    StepKeepsQueue(s, e);
  }

  // ---- runs ----

  lemma BuiltTail(es: seq<Event>)
    requires AllBuilt(es) && es != []
    ensures BuiltByHandler(es[0]) && AllBuilt(es[1..])
  {
    assert BuiltByHandler(es[0]);
    assert forall i :: 0 <= i < |es[1..]| ==> es[1..][i] == es[i + 1];
  }

  lemma RunTakes(s: Link, e: Event, es: seq<Event>)
    ensures Run(s, [e] + es) == Run(Step(s, e), es)
  {
  }

  lemma {:induction false} RunConcat(s: Link, a: seq<Event>, b: seq<Event>)
    ensures Run(s, a + b) == Run(Run(s, a), b)
    decreases |a|
  {
    if a == [] {
      assert a + b == b;
    } else {
      RunConcat(Step(s, a[0]), a[1..], b);
      assert (a + b)[1..] == a[1..] + b;
    }
  }

  // ---- the one way out of the invariant ----

  lemma PollAckWedges(s: Link, e: Event)
    requires LinkInv(s) && AcksPoll(s, e)
    ensures Wedged(Step(s, e)) && !LinkInv(Step(s, e))
  {
  }

  /** Four steps to a stopped link: a package is enqueued, popped and polled for, and the poll is acknowledged. */
  lemma PollAckExample()
    ensures var add := Encode(AddPackage(5, 1, RED));
      Wedged(Run(INIT, [Enqueue(add), Pop, Dispatch, Deliver(MessageReceived(1, 1))]))
  {
    var add := Encode(AddPackage(5, 1, RED));
    var ack := Deliver(MessageReceived(1, 1));
    var s1 := Step(INIT, Enqueue(add));
    var s2 := Step(s1, Pop);
    var s3 := Step(s2, Dispatch);
    RunTakes(INIT, Enqueue(add), [Pop, Dispatch, ack]);
    RunTakes(s1, Pop, [Dispatch, ack]);
    RunTakes(s2, Dispatch, [ack]);
    RunTakes(s3, ack, []);
  }

  lemma WedgedIsNotInv(s: Link)
    requires Wedged(s)
    ensures !LinkInv(s)
  {
  }

  lemma WedgedStep(s: Link, e: Event)
    requires Wedged(s)
    ensures var s' := Step(s, e);
      && Wedged(s') && s.tx <= s'.tx
      && (s'.log == s.log || exists r :: s'.log == s.log + [Forwarded(r)])
  {
  }

  /** All that an observer of a wedged link still sees are arrival reports. */
  lemma WedgedNotes(s: Link, e: Event)
    requires Wedged(s)
    ensures NotesOf(s, e) == if e.Deliver? && e.response.PackageArrived?
      then [Forwarded(ReportArrived(e.response.box, e.response.pkg))] else []
  {
  }

  /** A wedged link sends nothing and takes nothing from its queue, whatever happens. */
  lemma {:induction false} WedgedForever(s: Link, es: seq<Event>)
    requires Wedged(s)
    ensures var s' := Run(s, es);
      && Wedged(s') && s.tx <= s'.tx && s.log <= s'.log
      && forall i :: |s.log| <= i < |s'.log| ==> s'.log[i].Forwarded?
    decreases |es|
  {
    if es != [] {
      WedgedStep(s, es[0]);
      WedgedForever(Step(s, es[0]), es[1..]);
    }
  }

  /** The invariant survives a run exactly when no poll was acknowledged by a MESSAGE_RECEIVED. */
  lemma {:induction false} InvariantIffNoPollAcked(s: Link, es: seq<Event>)
    requires LinkInv(s) && AllBuilt(es)
    ensures LinkInv(Run(s, es)) <==> NoPollAcked(s, es)
    ensures Wedged(Run(s, es)) <==> !NoPollAcked(s, es)
    decreases |es|
  {
    if es != [] {
      var s' := Step(s, es[0]);
      if AcksPoll(s, es[0]) {
        PollAckWedges(s, es[0]);
        WedgedForever(s', es[1..]);
        WedgedIsNotInv(Run(s', es[1..]));
      } else {
        BuiltTail(es);
        StepRefines(s, es[0]);
        InvariantIffNoPollAcked(s', es[1..]);
      }
    }
  }

  lemma StepSafe(s: Link, e: Event)
    requires SafeInv(s) && BuiltByHandler(e)
    ensures SafeInv(Step(s, e))
  {
    if Wedged(s) {
      WedgedStep(s, e);
    } else if AcksPoll(s, e) {
      PollAckWedges(s, e);
    } else {
      StepRefines(s, e);
    }
  }

  /** Whatever the environment sends, the link is in a phase of the simple machine or wedged. */
  lemma {:induction false} RunSafe(s: Link, es: seq<Event>)
    requires SafeInv(s) && AllBuilt(es)
    ensures SafeInv(Run(s, es))
    decreases |es|
  {
    if es != [] {
      BuiltTail(es);
      StepSafe(s, es[0]);
      RunSafe(Step(s, es[0]), es[1..]);
    }
  }

  // ---- what a step observes ----

  lemma SendAntAddsNotes(s: Link, m: Message)
    ensures SendAnt(s, m).log == s.log + [Sent(FirstFrame(s, m))]
  {
  }

  lemma InputStateAddsNotes(s: Link, conveyor: int, available: bool)
    ensures InputState(s, conveyor, available).log == s.log + InputNotes(s, conveyor, available)
  {
  }

  lemma ReceiveAddsNotes(s: Link, r: Response)
    ensures Receive(s, r).log == s.log + NotesOf(s, Deliver(r))
  {
    match r
    case StateResponse(c, a) =>
      InputStateAddsNotes(s.(running := false, log := s.log + [Availability(c, a)]), c, a);
    case _ =>
  }

  lemma StepAddsNotes(s: Link, e: Event)
    ensures Step(s, e).log == s.log + NotesOf(s, e)
  {
    match e
    case Dispatch =>
      if s.held.Some? {
        SendAntAddsNotes(s.(held := None), s.held.value);
      }
    case Deliver(r) => ReceiveAddsNotes(s, r);
    case _ =>
  }
}
