/** Progress of the link: retransmission is never lost, and exactly when the queue can still be emptied. */
module LinkProgress {
  import opened Messages
  import opened Links
  import opened LinkProofs

  // ---- retransmission ----

  /** The timer and driver steps still to be taken until the pending message is sent again. */
  function RetrySteps(s: Link): seq<Event> {
    if s.taking then [DriverHandles]
    else if s.timedOut then [DriverTakes, DriverHandles]
    else if s.stage == RAISING then [TimerRaises, DriverTakes, DriverHandles]
    else if s.stage == EXPIRING then [TimerClears, TimerRaises, DriverTakes, DriverHandles]
    else [TimerExpires, TimerCommits, TimerClears, TimerRaises, DriverTakes, DriverHandles]
  }

  lemma HandleRetries(s: Link)
    requires s.taking
    ensures Run(s, [DriverHandles]) == TimedOut(s.(taking := false))
  {
  }

  lemma TakeRetries(s: Link)
    requires !s.taking && s.timedOut
    ensures Run(s, [DriverTakes, DriverHandles]) == TimedOut(s.(timedOut := false))
  {
  }

  lemma RaiseRetries(s: Link)
    requires !s.taking && !s.timedOut && s.stage == RAISING
    ensures Run(s, [TimerRaises, DriverTakes, DriverHandles]) == TimedOut(s.(stage := WATCHING))
  {
  }

  lemma ClearRetries(s: Link)
    requires !s.taking && !s.timedOut && s.stage == EXPIRING
    ensures Run(s, [TimerClears, TimerRaises, DriverTakes, DriverHandles]) ==
      TimedOut(s.(running := false, expired := false, stage := WATCHING))
  {
    RunTakes(s, TimerClears, [TimerRaises, DriverTakes, DriverHandles]);
    RaiseRetries(Step(s, TimerClears));
  }

  lemma ExpireRetries(s: Link)
    requires !s.taking && !s.timedOut && s.stage == WATCHING && s.running
    ensures Run(s, [TimerExpires, TimerCommits, TimerClears, TimerRaises, DriverTakes, DriverHandles]) ==
      TimedOut(s.(running := false, expired := false))
  {
    var s1 := Step(s, TimerExpires);
    RunTakes(s, TimerExpires, [TimerCommits, TimerClears, TimerRaises, DriverTakes, DriverHandles]);
    RunTakes(s1, TimerCommits, [TimerClears, TimerRaises, DriverTakes, DriverHandles]);
    ClearRetries(Step(s1, TimerCommits));
  }

  /**
   No lost wake-up: while a reply is awaited, at most six timer and driver steps,
   none of which needs the environment, send the pending message again.
   */
  lemma RetryAlwaysEnabled(s: Link)
    requires LinkInv(s) && s.waiting
    ensures forall i :: 0 <= i < |RetrySteps(s)| ==> Internal(RetrySteps(s)[i])
    ensures s.pending.Some?
    ensures Run(s, RetrySteps(s)).log == s.log + [Sent(FrameOf(s.pending.value, s.timestamp))]
  {
    if s.taking {
      HandleRetries(s);
    } else if s.timedOut {
      TakeRetries(s);
    } else if s.stage == RAISING {
      RaiseRetries(s);
    } else if s.stage == EXPIRING {
      ClearRetries(s);
    } else {
      ExpireRetries(s);
    }
  }

  // ---- draining ----

  /** Messages that a conveyor can answer: its id fits the byte that a reply carries. */
  predicate Answerable(m: Message) {
    IsByte(m.conveyor) || m.id == CLEAR_BOX_ID
  }

  /** The steps that take the outstanding message, if any, to its completion. */
  function ServeSteps(p: Phase): seq<Event>
    decreases if p.Holding? then 2 else if p.Polling? then 1 else 0
  {
    match p
    case Idle => []
    case Holding(m) => [Dispatch] + (if m.id == ADD_PACKAGE_ID then ServeSteps(Polling(m)) else ServeSteps(Awaiting(m)))
    case Polling(m) => [Deliver(StateResponse(Low(m.conveyor), true))] + ServeSteps(Awaiting(m))
    case Awaiting(m) =>
      [Deliver(if m.id == CLEAR_BOX_ID then ClearResponse(0, {}) else MessageReceived(Low(m.id), Low(m.conveyor)))]
  }

  lemma ServeCompletes(s: Link)
    requires LinkInv(s) && (PhaseOf(s).Idle? || Answerable(PhaseOf(s).msg))
    ensures var s' := Run(s, ServeSteps(PhaseOf(s)));
      LinkInv(s') && PhaseOf(s') == Idle && s'.tx == s.tx
    decreases if PhaseOf(s).Holding? then 2 else if PhaseOf(s).Polling? then 1 else 0
  {
    var steps := ServeSteps(PhaseOf(s));
    if steps != [] {
      StepRefines(s, steps[0]);
      QueueAfter(s, steps[0]);
      if !PhaseOf(s).Awaiting? {
        ServeCompletes(Step(s, steps[0]));
      }
    }
  }

  /** Nothing outstanding, nothing queued. */
  predicate Drained(s: Link) {
    InPhase(s, Idle) && s.tx == []
  }

  predicate PhaseAnswerable(p: Phase) {
    p.Idle? || Answerable(p.msg)
  }

  /** Every message outstanding or queued can be answered. */
  predicate AllAnswerable(s: Link) {
    && PhaseAnswerable(PhaseOf(s))
    && forall i :: 0 <= i < |s.tx| ==> Answerable(s.tx[i])
  }

  lemma ServeIsBuilt(p: Phase)
    ensures AllBuilt(ServeSteps(p))
    decreases if p.Holding? then 2 else if p.Polling? then 1 else 0
  {
    match p
    case Holding(m) =>
      ServeIsBuilt(Polling(m));
      ServeIsBuilt(Awaiting(m));
    case Polling(m) => ServeIsBuilt(Awaiting(m));
    case _ =>
  }

  /** Some continuation drains a link whose messages can all be answered: it cannot deadlock. */
  lemma {:induction false} CanAlwaysDrain(s: Link) returns (es: seq<Event>)
    requires LinkInv(s) && AllAnswerable(s)
    ensures AllBuilt(es)
    ensures LinkInv(Run(s, es)) && PhaseOf(Run(s, es)) == Idle && Run(s, es).tx == []
    decreases |s.tx|
  {
    es := ServeSteps(PhaseOf(s));
    ServeCompletes(s);
    ServeIsBuilt(PhaseOf(s));
    var s1 := Run(s, es);
    if s1.tx != [] {
      StepRefines(s1, Pop);
      QueueAfter(s1, Pop);
      var more := CanAlwaysDrain(Step(s1, Pop));
      RunTakes(s1, Pop, more);
      RunConcat(s, es, [Pop] + more);
      es := es + ([Pop] + more);
    }
  }

  /** `m` is outstanding or queued. */
  predicate InLink(s: Link, m: Message) {
    (!PhaseOf(s).Idle? && PhaseOf(s).msg == m) || m in s.tx
  }

  /** A message that cannot be answered stays outstanding or queued, unless the link wedges. */
  lemma UnanswerableStays(s: Link, e: Event, m: Message)
    requires LinkInv(s) && BuiltByHandler(e) && !AcksPoll(s, e)
    requires InLink(s, m) && !Answerable(m)
    ensures InLink(Step(s, e), m)
    ensures PhaseOf(s) == Awaiting(m) ==> PhaseOf(Step(s, e)) == Awaiting(m)
  {
    StepRefines(s, e);
    QueueAfter(s, e);
  }

  /**
   A message whose conveyor id does not fit a byte is never completed, wherever
   it is: no reply can name it. Once awaited it is awaited forever.
   */
  lemma {:induction false} UnanswerableBlocksForever(s: Link, es: seq<Event>, m: Message)
    requires LinkInv(s) && InLink(s, m) && !Answerable(m) && AllBuilt(es)
    ensures NoPollAcked(s, es) ==> InLink(Run(s, es), m)
    ensures PhaseOf(s) == Awaiting(m) ==> PhaseOf(Run(s, es)) == Awaiting(m)
    ensures !Drained(Run(s, es))
    decreases |es|
  {
    if es != [] {
      BuiltTail(es);
      if AcksPoll(s, es[0]) {
        PollAckWedges(s, es[0]);
        WedgedForever(Step(s, es[0]), es[1..]);
      } else {
        StepRefines(s, es[0]);
        UnanswerableStays(s, es[0], m);
        UnanswerableBlocksForever(Step(s, es[0]), es[1..], m);
      }
    }
  }

  /** Nothing in the link stands in the way of emptying the queue. */
  predicate Unblocked(s: Link) {
    !Wedged(s) && AllAnswerable(s)
  }

  ghost predicate Drainable(s: Link) {
    exists es :: AllBuilt(es) && Drained(Run(s, es))
  }

  /** Some continuation drains the link exactly when every message outstanding or queued can be answered. */
  lemma DrainableIffAnswerable(s: Link)
    requires LinkInv(s)
    ensures Drainable(s) <==> AllAnswerable(s)
  {
    if AllAnswerable(s) {
      var es := CanAlwaysDrain(s);
      assert Drained(Run(s, es));
    } else {
      var m :| InLink(s, m) && !Answerable(m);
      forall es | AllBuilt(es)
        ensures !Drained(Run(s, es))
      {
        UnanswerableBlocksForever(s, es, m);
      }
    }
  }

  lemma WedgedIsNotDrainable(s: Link)
    requires Wedged(s)
    ensures !Drainable(s)
  {
    forall es | AllBuilt(es)
      ensures !Drained(Run(s, es))
    {
      WedgedForever(s, es);
    }
  }

  lemma PhaseStaysAnswerableIff(p: Phase, tx: seq<Message>, e: Event)
    ensures PhaseAnswerable(NextPhase(p, tx, e)) <==>
      PhaseAnswerable(p) && (p.Idle? && e.Pop? && tx != [] ==> Answerable(tx[0]))
  {
  }

  lemma StepAnswerableIff(s: Link, e: Event)
    requires LinkInv(s) && BuiltByHandler(e) && !AcksPoll(s, e)
    ensures AllAnswerable(Step(s, e)) <==> AllAnswerable(s) && (e.Enqueue? ==> Answerable(e.msg))
  {
    StepRefines(s, e);
    QueueAfter(s, e);
    PhaseStaysAnswerableIff(PhaseOf(s), s.tx, e);
    var tx' := Step(s, e).tx;
    if e.Enqueue? {
      assert tx'[|s.tx|] == e.msg && forall i :: 0 <= i < |s.tx| ==> tx'[i] == s.tx[i];
    } else if e.Pop? && CanPop(s) {
      assert PhaseOf(s) == Idle;
      assert forall i :: 0 < i < |s.tx| ==> tx'[i - 1] == s.tx[i];
    }
  }

  /** Exactly two kinds of events block a link: acknowledging a poll, and queueing an unanswerable message. */
  lemma StepBlocksIff(s: Link, e: Event)
    requires LinkInv(s) && BuiltByHandler(e)
    ensures Unblocked(Step(s, e)) <==>
      AllAnswerable(s) && !AcksPoll(s, e) && (e.Enqueue? ==> Answerable(e.msg))
  {
    if AcksPoll(s, e) {
      PollAckWedges(s, e);
    } else {
      StepRefines(s, e);
      StepAnswerableIff(s, e);
      assert !Wedged(Step(s, e)) by {
        if Wedged(Step(s, e)) {
          WedgedIsNotInv(Step(s, e));
        }
      }
    }
  }

  lemma {:induction false} RunBlocksIff(s: Link, es: seq<Event>)
    requires LinkInv(s) && AllBuilt(es)
    ensures Unblocked(Run(s, es)) <==>
      AllAnswerable(s) && NoPollAcked(s, es) && forall m :: m in Enqueued(es) ==> Answerable(m)
    decreases |es|
  {
    if es != [] {
      BuiltTail(es);
      StepBlocksIff(s, es[0]);
      if AcksPoll(s, es[0]) {
        PollAckWedges(s, es[0]);
        WedgedForever(Step(s, es[0]), es[1..]);
      } else {
        StepRefines(s, es[0]);
        RunBlocksIff(Step(s, es[0]), es[1..]);
      }
    }
  }

  /**
   After any run since start-up, some continuation empties the link exactly when
   no poll was acknowledged by a MESSAGE_RECEIVED and every message ever
   enqueued could be answered.
   */
  lemma DrainableIff(es: seq<Event>)
    requires AllBuilt(es)
    ensures Drainable(Run(INIT, es)) <==>
      NoPollAcked(INIT, es) && forall m :: m in Enqueued(es) ==> Answerable(m)
  {
    var s := Run(INIT, es);
    RunBlocksIff(INIT, es);
    InvariantIffNoPollAcked(INIT, es);
    if Wedged(s) {
      WedgedIsNotDrainable(s);
    } else {
      DrainableIffAnswerable(s);
    }
  }

  /** Conveyor 300 is told to disconnect: the message is enqueued, popped, sent, and never completed. */
  lemma UnanswerableExample()
    ensures var m := Encode(Disconnect(300));
      var s := Run(INIT, [Enqueue(m), Pop, Dispatch]);
      PhaseOf(s) == Awaiting(m) && !Drainable(s)
  {
    var m := Encode(Disconnect(300));
    var s1 := Step(INIT, Enqueue(m));
    var s2 := Step(s1, Pop);
    RunTakes(INIT, Enqueue(m), [Pop, Dispatch]);
    RunTakes(s1, Pop, [Dispatch]);
    RunTakes(s2, Dispatch, []);
    DrainableIffAnswerable(Step(s2, Dispatch));
  }
}
