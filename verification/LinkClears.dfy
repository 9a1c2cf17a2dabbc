/** Clear-box accounting: exactly when each completed clear is reported once, and as the box that was being cleared. */
module LinkClears {
  import opened CentralTypes
  import opened Messages
  import opened Links
  import opened LinkProofs
  import opened LinkGate

  // ---- observations ----

  predicate ClearReported(note: Note) {
    note.Forwarded? && note.report.ReportCleared?
  }

  /** The payloads of the clears taken from the queue: each names its box. */
  function ClearsPopped(log: seq<Note>): seq<seq<byte>> {
    if log == [] then [] else
    var n := |log| - 1;
    ClearsPopped(log[..n]) + if log[n].Popped? && log[n].msg.id == CLEAR_BOX_ID then [log[n].msg.data] else []
  }

  /** The boxes reported to the processing thread as cleared, as payloads. */
  function ClearsReported(log: seq<Note>): seq<seq<byte>> {
    if log == [] then [] else
    var n := |log| - 1;
    ClearsReported(log[..n]) + if ClearReported(log[n]) then [[log[n].report.box]] else []
  }

  /** How many clears were completed by a MESSAGE_RECEIVED naming the response id. */
  function ClearsAcked(log: seq<Note>): nat {
    if log == [] then 0 else
    var n := |log| - 1;
    ClearsAcked(log[..n]) + if log[n].Acked? && log[n].id == CLEAR_BOX_RESPONSE_ID then 1 else 0
  }

  /** The clear popped but not completed, if there is one. */
  function OpenClear(p: Phase): seq<seq<byte>> {
    if !p.Idle? && p.msg.id == CLEAR_BOX_ID then [p.msg.data] else []
  }

  lemma {:induction false} ClearsConcat(a: seq<Note>, b: seq<Note>)
    ensures ClearsPopped(a + b) == ClearsPopped(a) + ClearsPopped(b)
    ensures ClearsReported(a + b) == ClearsReported(a) + ClearsReported(b)
    ensures ClearsAcked(a + b) == ClearsAcked(a) + ClearsAcked(b)
  {
    if b == [] {
      assert a + b == a;
    } else {
      var n := |b| - 1;
      ClearsConcat(a, b[..n]);
      assert (a + b)[..|a + b| - 1] == a + b[..n] && (a + b)[|a + b| - 1] == b[n];
      ClearsOfLast(b);
      ClearsOfLast(a + b);
    }
  }

  lemma ClearsOfLast(log: seq<Note>)
    requires log != []
    ensures var n := |log| - 1;
      && ClearsPopped(log) == ClearsPopped(log[..n]) + ClearsPopped([log[n]])
      && ClearsReported(log) == ClearsReported(log[..n]) + ClearsReported([log[n]])
      && ClearsAcked(log) == ClearsAcked(log[..n]) + ClearsAcked([log[n]])
  {
    var n := |log| - 1;
    ClearsOfOne(log[n]);
  }

  lemma ClearsOfOne(note: Note)
    ensures ClearsPopped([note]) == if note.Popped? && note.msg.id == CLEAR_BOX_ID then [note.msg.data] else []
    ensures ClearsReported([note]) == if ClearReported(note) then [[note.report.box]] else []
    ensures ClearsAcked([note]) == if note.Acked? && note.id == CLEAR_BOX_RESPONSE_ID then 1 else 0
  {
  }

  predicate ConcernsClear(note: Note) {
    note.Popped? || ClearReported(note) || note.Acked?
  }

  lemma {:induction false} NoClears(notes: seq<Note>)
    requires forall i :: 0 <= i < |notes| ==> !ConcernsClear(notes[i])
    ensures ClearsPopped(notes) == [] && ClearsReported(notes) == [] && ClearsAcked(notes) == 0
  {
    if notes != [] {
      NoClears(notes[..|notes| - 1]);
    }
  }

  // ---- the events that spoil the accounts ----

  predicate AwaitsClear(s: Link) {
    s.waiting && s.waitingId == CLEAR_BOX_RESPONSE_ID
  }

  /** A MESSAGE_RECEIVED that names the id of the clear response being waited for. */
  predicate AcksClear(s: Link, e: Event) {
    && e.Deliver? && e.response.MessageReceived? && e.response.id == CLEAR_BOX_RESPONSE_ID
    && AwaitsClear(s) && s.waitingConveyor == e.response.conveyor
  }

  /** A clear response that names another box than the one being cleared. */
  predicate Misnames(s: Link, e: Event) {
    && e.Deliver? && e.response.ClearResponse? && AwaitsClear(s)
    && (s.pending.Some? ==> s.pending.value.data != [e.response.box])
  }

  predicate NoClearAcked(s: Link, es: seq<Event>)
    decreases |es|
  {
    es != [] ==> !AcksClear(s, es[0]) && NoClearAcked(Step(s, es[0]), es[1..])
  }

  predicate NoneMisnamed(s: Link, es: seq<Event>)
    decreases |es|
  {
    es != [] ==> !Misnames(s, es[0]) && NoneMisnamed(Step(s, es[0]), es[1..])
  }

  // ---- one step ----

  /** What a step adds to the three accounts. */
  lemma NotesOfClears(s: Link, e: Event)
    requires SafeInv(s)
    ensures var notes := NotesOf(s, e);
      && ClearsPopped(notes) ==
           (if e.Pop? && CanPop(s) && s.tx[0].id == CLEAR_BOX_ID then [s.tx[0].data] else [])
      && ClearsReported(notes) ==
           (if e.Deliver? && e.response.ClearResponse? && AwaitsClear(s) then [[e.response.box]] else [])
      && ClearsAcked(notes) == if AcksClear(s, e) then 1 else 0
  {
    match e
    case Pop =>
      if CanPop(s) {
        ClearsOfOne(Popped(s.tx[0]));
      }
    case Deliver(MessageReceived(id, conveyor)) => ClearsOfOne(Acked(id));
    case Deliver(ClearResponse(box, packages)) => ClearsOfOne(Forwarded(ReportCleared(box, packages)));
    case _ => NoClears(NotesOf(s, e));
  }

  lemma AccountsAfter(s: Link, e: Event)
    requires SafeInv(s)
    ensures var s' := Step(s, e);
      && ClearsPopped(s'.log) == ClearsPopped(s.log) +
           (if e.Pop? && CanPop(s) && s.tx[0].id == CLEAR_BOX_ID then [s.tx[0].data] else [])
      && ClearsReported(s'.log) == ClearsReported(s.log) +
           (if e.Deliver? && e.response.ClearResponse? && AwaitsClear(s) then [[e.response.box]] else [])
      && ClearsAcked(s'.log) == ClearsAcked(s.log) + if AcksClear(s, e) then 1 else 0
  {
    StepAddsNotes(s, e);
    ClearsConcat(s.log, NotesOf(s, e));
    NotesOfClears(s, e);
  }

  /** The open clear changes when a clear is popped and when it is completed. */
  lemma OpenClearAfter(s: Link, e: Event)
    requires SafeInv(s) && BuiltByHandler(e)
    ensures OpenClear(PhaseOf(Step(s, e))) ==
      if e.Pop? && CanPop(s) && s.tx[0].id == CLEAR_BOX_ID then [s.tx[0].data]
      else if AcksClear(s, e) || (e.Deliver? && e.response.ClearResponse? && AwaitsClear(s)) then []
      else OpenClear(PhaseOf(s))
  {
    if Wedged(s) {
      WedgedStep(s, e);
    } else if AcksPoll(s, e) {
      PollAckWedges(s, e);
    } else {
      StepRefines(s, e);
    }
  }

  /** While a clear response is awaited, the open clear is the pending message. */
  lemma AwaitedClearIsOpen(s: Link)
    requires SafeInv(s) && AwaitsClear(s)
    ensures PhaseOf(s).Awaiting? && s.pending == Some(PhaseOf(s).msg)
    ensures OpenClear(PhaseOf(s)) == [s.pending.value.data]
  {
  }

  lemma PopsWhenNothingIsOpen(s: Link)
    requires SafeInv(s) && CanPop(s)
    ensures OpenClear(PhaseOf(s)) == []
  {
  }

  /** Clears popped are those reported, those acknowledged away, and the open one, which was popped last. */
  ghost predicate ClearsBalance(s: Link) {
    var popped, open := ClearsPopped(s.log), OpenClear(PhaseOf(s));
    && |popped| == |ClearsReported(s.log)| + ClearsAcked(s.log) + |open|
    && popped[|popped| - |open|..] == open
  }

  lemma StepBalances(s: Link, e: Event)
    requires SafeInv(s) && BuiltByHandler(e) && ClearsBalance(s)
    ensures ClearsBalance(Step(s, e))
  {
    AccountsAfter(s, e);
    OpenClearAfter(s, e);
    if e.Pop? && CanPop(s) {
      PopsWhenNothingIsOpen(s);
    } else if AwaitsClear(s) {
      AwaitedClearIsOpen(s);
    }
  }

  /** The boxes reported, then the open clear, are exactly the clears popped, in order. */
  ghost predicate ReportedInOrder(s: Link) {
    ClearsReported(s.log) + OpenClear(PhaseOf(s)) == ClearsPopped(s.log)
  }

  /** Two lists of equal length grow by one element each: they stay equal iff they were and the elements are. */
  lemma LastDecides<T>(a: seq<T>, x: T, b: seq<T>, y: T)
    ensures a + [x] == b + [y] <==> a == b && x == y
  {
    if a + [x] == b + [y] {
      assert (a + [x])[..|a|] == a && (b + [y])[..|b|] == b;
      assert (a + [x])[|a|] == x && (b + [y])[|b|] == y;
    }
  }

  lemma CompletionInOrderIff(s: Link, e: Event)
    requires SafeInv(s) && BuiltByHandler(e) && ClearsBalance(s)
    requires e.Deliver? && AwaitsClear(s) && (e.response.ClearResponse? || AcksClear(s, e))
    ensures ReportedInOrder(Step(s, e)) <==> ReportedInOrder(s) && !AcksClear(s, e) && !Misnames(s, e)
  {
    AccountsAfter(s, e);
    OpenClearAfter(s, e);
    AwaitedClearIsOpen(s);
    var popped, reported, open := ClearsPopped(s.log), ClearsReported(s.log), s.pending.value.data;
    var done, reported' := popped[..|popped| - 1], ClearsReported(Step(s, e).log);
    assert popped == done + [open];
    LastDecides(reported, open, done, open);
    assert ReportedInOrder(s) <==> reported == done;
    assert reported' + [] == reported';
    assert ReportedInOrder(Step(s, e)) <==> reported' == done + [open];
    if e.response.ClearResponse? {
      LastDecides(reported, [e.response.box], done, open);
    } else {
      assert |reported'| < |popped|;
    }
  }

  lemma PopInOrderIff(s: Link)
    requires SafeInv(s) && CanPop(s) && s.tx[0].id == CLEAR_BOX_ID
    ensures ReportedInOrder(Step(s, Pop)) <==> ReportedInOrder(s)
  {
    AccountsAfter(s, Pop);
    OpenClearAfter(s, Pop);
    PopsWhenNothingIsOpen(s);
    var reported, popped, d := ClearsReported(s.log), ClearsPopped(s.log), s.tx[0].data;
    assert reported + [] == reported && ClearsReported(Step(s, Pop).log) == reported;
    LastDecides(reported, d, popped, d);
  }

  /** A step keeps the reports in order exactly when it neither acknowledges a clear nor misnames one. */
  lemma StepInOrderIff(s: Link, e: Event)
    requires SafeInv(s) && BuiltByHandler(e) && ClearsBalance(s)
    ensures ReportedInOrder(Step(s, e)) <==> ReportedInOrder(s) && !AcksClear(s, e) && !Misnames(s, e)
  {
    if e.Deliver? && AwaitsClear(s) && (e.response.ClearResponse? || AcksClear(s, e)) {
      CompletionInOrderIff(s, e);
    } else if e.Pop? && CanPop(s) && s.tx[0].id == CLEAR_BOX_ID {
      PopInOrderIff(s);
    } else {
      AccountsAfter(s, e);
      OpenClearAfter(s, e);
      assert ClearsReported(Step(s, e).log) == ClearsReported(s.log);
      assert ClearsPopped(Step(s, e).log) == ClearsPopped(s.log);
    }
  }

  // ---- whole runs ----

  lemma StartBalances()
    ensures SafeInv(INIT) && ClearsBalance(INIT) && ReportedInOrder(INIT)
    ensures ClearsAcked(INIT.log) == 0
  {
    NoClears(INIT.log);
  }

  lemma {:induction false} RunInOrderIff(s: Link, es: seq<Event>)
    requires SafeInv(s) && AllBuilt(es) && ClearsBalance(s)
    ensures ReportedInOrder(Run(s, es)) <==> ReportedInOrder(s) && NoClearAcked(s, es) && NoneMisnamed(s, es)
    decreases |es|
  {
    if es != [] {
      BuiltTail(es);
      StepSafe(s, es[0]);
      StepBalances(s, es[0]);
      StepInOrderIff(s, es[0]);
      RunInOrderIff(Step(s, es[0]), es[1..]);
    }
  }

  /**
   However many duplicate responses arrive: the boxes reported as cleared, then
   the open clear, are exactly the clears popped, in order, if and only if no
   clear was completed by a MESSAGE_RECEIVED and every clear response accepted
   names the box being cleared.
   */
  lemma ClearsReportedInOrder(es: seq<Event>)
    requires AllBuilt(es)
    ensures ReportedInOrder(Run(INIT, es)) <==> NoClearAcked(INIT, es) && NoneMisnamed(INIT, es)
  {
    StartBalances();
    RunInOrderIff(INIT, es);
  }

  lemma {:induction false} RunBalances(s: Link, es: seq<Event>)
    requires SafeInv(s) && AllBuilt(es) && ClearsBalance(s)
    ensures ClearsBalance(Run(s, es))
    ensures ClearsAcked(Run(s, es).log) >= ClearsAcked(s.log)
    ensures ClearsAcked(Run(s, es).log) == ClearsAcked(s.log) <==> NoClearAcked(s, es)
    decreases |es|
  {
    if es != [] {
      BuiltTail(es);
      StepSafe(s, es[0]);
      StepBalances(s, es[0]);
      AccountsAfter(s, es[0]);
      RunBalances(Step(s, es[0]), es[1..]);
    }
  }

  /**
   However many duplicate responses arrive, as many clears are reported as were
   completed, exactly when none was completed by a MESSAGE_RECEIVED.
   */
  lemma ClearsReportedOnce(es: seq<Event>)
    requires AllBuilt(es)
    ensures var s := Run(INIT, es);
      |ClearsReported(s.log)| + |OpenClear(PhaseOf(s))| == |ClearsPopped(s.log)| <==> NoClearAcked(INIT, es)
  {
    StartBalances();
    RunBalances(INIT, es);
  }

  // ---- attribution ----

  /** The report at position `i` names the box of the clear popped last before it. */
  ghost predicate NamesItsClear(log: seq<Note>, i: nat)
    requires i < |log| && ClearReported(log[i])
  {
    exists m :: Since(log, i, m) && m.id == CLEAR_BOX_ID && m.data == [log[i].report.box]
  }

  ghost predicate Attributed(log: seq<Note>) {
    forall i :: 0 <= i < |log| && ClearReported(log[i]) ==> NamesItsClear(log, i)
  }

  lemma SinceIsUnique(log: seq<Note>, n: nat, a: Message, b: Message)
    requires Since(log, n, a) && Since(log, n, b)
    ensures a == b
  {
    var p: nat :| p < n <= |log| && log[p] == Popped(a) && NoPop(log, p, n);
    var q: nat :| q < n <= |log| && log[q] == Popped(b) && NoPop(log, q, n);
    assert p == q;
  }

  lemma NamesIsLocal(log: seq<Note>, notes: seq<Note>, i: nat)
    requires i < |log| && ClearReported(log[i])
    ensures NamesItsClear(log + notes, i) <==> NamesItsClear(log, i)
  {
    assert (log + notes)[i] == log[i];
    forall m
      ensures Since(log + notes, i, m) <==> Since(log, i, m)
    {
      SinceIsLocal(log, notes, i, m);
    }
  }

  /** Observations that report no clear change no attribution. */
  lemma OthersKeepAttribution(log: seq<Note>, notes: seq<Note>)
    requires forall i :: 0 <= i < |notes| ==> !ClearReported(notes[i])
    ensures Attributed(log + notes) <==> Attributed(log)
  {
    var log' := log + notes;
    forall i | 0 <= i < |log| && ClearReported(log[i])
      ensures log'[i] == log[i] && (NamesItsClear(log', i) <==> NamesItsClear(log, i))
    {
      NamesIsLocal(log, notes, i);
    }
  }

  lemma ReportAttributedIff(log: seq<Note>, m: Message, box: byte, packages: set<int>)
    requires Since(log, |log|, m) && m.id == CLEAR_BOX_ID
    ensures Attributed(log + [Forwarded(ReportCleared(box, packages))]) <==> Attributed(log) && m.data == [box]
  {
    var note := Forwarded(ReportCleared(box, packages));
    var log' := log + [note];
    forall i | 0 <= i < |log| && ClearReported(log[i])
      ensures log'[i] == log[i] && (NamesItsClear(log', i) <==> NamesItsClear(log, i))
    {
      NamesIsLocal(log, [note], i);
    }
    assert log'[|log|] == note && ClearReported(log'[|log|]);
    SinceIsLocal(log, [note], |log|, m);
    assert NamesItsClear(log', |log|) <==> m.data == [box] by {
      if NamesItsClear(log', |log|) {
        var k :| Since(log', |log|, k) && k.id == CLEAR_BOX_ID && k.data == [box];
        SinceIsUnique(log', |log|, m, k);
      }
    }
  }

  /** A step keeps every report attributed exactly when it does not misname a clear. */
  lemma StepAttributedIff(s: Link, e: Event)
    requires SafeInv(s) && PhaseLogged(s.log, PhaseOf(s))
    ensures Attributed(Step(s, e).log) <==> Attributed(s.log) && !Misnames(s, e)
  {
    StepAddsNotes(s, e);
    if e.Deliver? && e.response.ClearResponse? && AwaitsClear(s) {
      AwaitedClearIsOpen(s);
      ReportAttributedIff(s.log, PhaseOf(s).msg, e.response.box, e.response.packages);
    } else {
      OthersKeepAttribution(s.log, NotesOf(s, e));
    }
  }

  lemma {:induction false} RunAttributedIff(s: Link, es: seq<Event>)
    requires SafeInv(s) && AllBuilt(es) && Gated(s.log) && PhaseLogged(s.log, PhaseOf(s))
    ensures Attributed(Run(s, es).log) <==> Attributed(s.log) && NoneMisnamed(s, es)
    decreases |es|
  {
    if es != [] {
      BuiltTail(es);
      StepSafe(s, es[0]);
      StepGated(s, es[0]);
      StepAttributedIff(s, es[0]);
      RunAttributedIff(Step(s, es[0]), es[1..]);
    }
  }

  /** Every report names the box being cleared exactly when every clear response accepted does. */
  lemma ReportsNameTheirClear(es: seq<Event>)
    requires AllBuilt(es)
    ensures Attributed(Run(INIT, es).log) <==> NoneMisnamed(INIT, es)
  {
    RunAttributedIff(INIT, es);
  }

  // ---- runs that spoil the accounts ----

  /** The steps that enqueue, pop and send the clearing of a box behind conveyor 1. */
  function ClearSent(box: byte): seq<Event> {
    [Enqueue(Encode(ClearBox(1, box))), Pop, Dispatch]
  }

  lemma StepInRun(s: Link, e: Event)
    requires LinkInv(s) && BuiltByHandler(e) && !AcksPoll(s, e)
    ensures Run(s, [e]) == Step(s, e) && LinkInv(Step(s, e))
    ensures PhaseOf(Step(s, e)) == NextPhase(PhaseOf(s), s.tx, e)
  {
    RunTakes(s, e, []);
    StepRefines(s, e);
  }

  /** Sending a clear from a link that has nothing to do. */
  lemma ClearIsSent(s: Link, box: byte)
    requires LinkInv(s) && PhaseOf(s) == Idle && s.tx == []
    ensures var s' := Run(s, ClearSent(box));
      && LinkInv(s') && PhaseOf(s') == Awaiting(Encode(ClearBox(1, box))) && s'.tx == []
      && ClearsPopped(s'.log) == ClearsPopped(s.log) + [[box]]
      && ClearsReported(s'.log) == ClearsReported(s.log)
  {
    var m := Encode(ClearBox(1, box));
    var s1 := Step(s, Enqueue(m));
    var s2 := Step(s1, Pop);
    RunTakes(s, Enqueue(m), [Pop, Dispatch]);
    RunTakes(s1, Pop, [Dispatch]);
    StepInRun(s, Enqueue(m));
    AccountsAfter(s, Enqueue(m));
    StepInRun(s1, Pop);
    AccountsAfter(s1, Pop);
    StepInRun(s2, Dispatch);
    AccountsAfter(s2, Dispatch);
    QueueAfter(s2, Dispatch);
  }

  /** The reply to a clear, whatever box it names, leaves the link with nothing to do. */
  lemma ClearIsAnswered(s: Link, box: byte, reply: byte)
    requires LinkInv(s) && PhaseOf(s) == Awaiting(Encode(ClearBox(1, box))) && s.tx == []
    ensures var e := Deliver(ClearResponse(reply, {}));
      var s' := Run(s, [e]);
      && LinkInv(s') && PhaseOf(s') == Idle && s'.tx == []
      && ClearsPopped(s'.log) == ClearsPopped(s.log)
      && ClearsReported(s'.log) == ClearsReported(s.log) + [[reply]]
  {
    var e := Deliver(ClearResponse(reply, {}));
    StepInRun(s, e);
    AccountsAfter(s, e);
    QueueAfter(s, e);
  }

  lemma ClearIsAcked(s: Link, box: byte)
    requires LinkInv(s) && PhaseOf(s) == Awaiting(Encode(ClearBox(1, box)))
    ensures var s' := Run(s, [Deliver(MessageReceived(8, 1))]);
      && PhaseOf(s') == Idle
      && ClearsPopped(s'.log) == ClearsPopped(s.log) && ClearsReported(s'.log) == ClearsReported(s.log)
  {
    var e := Deliver(MessageReceived(8, 1));
    StepInRun(s, e);
    AccountsAfter(s, e);
  }

  /** Four steps: box 5 is cleared, the clear is acknowledged, and nothing is ever reported for it. */
  lemma ClearAckedExample()
    ensures var s := Run(INIT, ClearSent(5) + [Deliver(MessageReceived(8, 1))]);
      PhaseOf(s) == Idle && ClearsPopped(s.log) == [[5]] && ClearsReported(s.log) == []
  {
    ClearIsSent(INIT, 5);
    ClearIsAcked(Run(INIT, ClearSent(5)), 5);
    RunConcat(INIT, ClearSent(5), [Deliver(MessageReceived(8, 1))]);
  }

  /** Sending a clear and answering it, as one run. */
  lemma ClearRun(s: Link, box: byte, reply: byte)
    requires LinkInv(s) && PhaseOf(s) == Idle && s.tx == []
    ensures var s' := Run(s, ClearSent(box) + [Deliver(ClearResponse(reply, {}))]);
      && LinkInv(s') && PhaseOf(s') == Idle && s'.tx == []
      && ClearsPopped(s'.log) == ClearsPopped(s.log) + [[box]]
      && ClearsReported(s'.log) == ClearsReported(s.log) + [[reply]]
  {
    ClearIsSent(s, box);
    ClearIsAnswered(Run(s, ClearSent(box)), box, reply);
    RunConcat(s, ClearSent(box), [Deliver(ClearResponse(reply, {}))]);
  }

  lemma ClearRunIsBuilt(box: byte, reply: byte)
    ensures AllBuilt(ClearSent(box) + [Deliver(ClearResponse(reply, {}))])
  {
    EncodeIsQueueable(ClearBox(1, box));
  }

  /** Eight steps: a duplicate of box 5's response completes the clearing of box 6, and is reported as box 5's. */
  lemma ClearMisnamedExample()
    ensures var five := Deliver(ClearResponse(5, {}));
      var s := Run(INIT, (ClearSent(5) + [five]) + (ClearSent(6) + [five]));
      && PhaseOf(s) == Idle && ClearsPopped(s.log) == [[5], [6]] && ClearsReported(s.log) == [[5], [5]]
      && !Attributed(s.log)
  {
    var five := Deliver(ClearResponse(5, {}));
    var a, b := ClearSent(5) + [five], ClearSent(6) + [five];
    var s := Run(INIT, a + b);
    ClearRun(INIT, 5, 5);
    ClearRun(Run(INIT, a), 6, 5);
    RunConcat(INIT, a, b);
    ClearRunIsBuilt(5, 5);
    ClearRunIsBuilt(6, 5);
    assert AllBuilt(a + b);
    ClearsReportedOnce(a + b);
    ClearsReportedInOrder(a + b);
    ReportsNameTheirClear(a + b);
    assert ClearsReported(s.log) + OpenClear(PhaseOf(s)) == [[5], [5]];
    assert [[5], [5]][1] != [[5], [6]][1];
  }
}
