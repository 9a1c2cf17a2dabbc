/** Duplicate arrival reports on the air leave the link alone. */
module LinkArrivals {
  import opened CentralTypes
  import opened Messages
  import opened Links
  import opened LinkProofs
  import opened LinkTrace

  /** Equal in everything but the log. */
  predicate Alike(s: Link, t: Link) {
    && s.tx == t.tx && s.held == t.held && s.flow == t.flow
    && s.pendingInput == t.pendingInput && s.checking == t.checking && s.pending == t.pending
    && s.waiting == t.waiting && s.waitingConveyor == t.waitingConveyor && s.waitingId == t.waitingId
    && s.timestamp == t.timestamp
    && s.running == t.running && s.expired == t.expired && s.stage == t.stage
    && s.timedOut == t.timedOut && s.taking == t.taking
  }

  lemma SendAlike(s: Link, t: Link, id: int, conveyor: int, m: Message)
    requires Alike(s, t)
    ensures Alike(SendFresh(AwaitReply(s, id, conveyor), m), SendFresh(AwaitReply(t, id, conveyor), m))
  {
  }

  lemma SendAntAlike(s: Link, t: Link, m: Message)
    requires Alike(s, t)
    ensures Alike(SendAnt(s, m), SendAnt(t, m))
  {
    if m.id == ADD_PACKAGE_ID {
      SendAlike(s.(pendingInput := Some(m), checking := true), t.(pendingInput := Some(m), checking := true),
                CONVEYOR_STATE_RESPONSE_ID, m.conveyor, Poll(m.conveyor));
    } else {
      SendAlike(s, t, ReplyId(m.id), m.conveyor, m);
    }
  }

  lemma InputStateAlike(s: Link, t: Link, conveyor: int, available: bool)
    requires Alike(s, t)
    ensures Alike(InputState(s, conveyor, available), InputState(t, conveyor, available))
  {
    if s.pendingInput.Some? {
      SendAlike(s.(checking := false), t.(checking := false), ADD_PACKAGE_ID, conveyor, s.pendingInput.value);
      SendAlike(s, t, CONVEYOR_STATE_RESPONSE_ID, conveyor, Poll(conveyor));
    }
  }

  lemma ReceiveAlike(s: Link, t: Link, r: Response)
    requires Alike(s, t)
    ensures Alike(Receive(s, r), Receive(t, r))
  {
    match r
    case StateResponse(c, a) =>
      var note := Availability(c, a);
      InputStateAlike(s.(running := false, log := s.log + [note]), t.(running := false, log := t.log + [note]), c, a);
    case _ =>
  }

  lemma PopAlike(s: Link, t: Link)
    requires Alike(s, t)
    ensures Alike(Step(s, Pop), Step(t, Pop))
  {
  }

  lemma ThreadsAlike(s: Link, t: Link, e: Event)
    requires Alike(s, t) && Internal(e)
    ensures Alike(Step(s, e), Step(t, e))
  {
  }

  /** The log is only written: links that are alike take the same steps and log the same. */
  lemma StepAlike(s: Link, t: Link, e: Event)
    requires Alike(s, t)
    ensures Alike(Step(s, e), Step(t, e)) && NotesOf(s, e) == NotesOf(t, e)
  {
    match e
    case Dispatch =>
      if s.held.Some? {
        SendAntAlike(s.(held := None), t.(held := None), s.held.value);
      }
    case Deliver(r) => ReceiveAlike(s, t, r);
    case Enqueue(_) =>
    case Pop => PopAlike(s, t);
    case _ => ThreadsAlike(s, t, e);
  }

  /** Everything that a run adds to the log. */
  function AllNotes(s: Link, es: seq<Event>): seq<Note>
    decreases |es|
  {
    if es == [] then [] else NotesOf(s, es[0]) + AllNotes(Step(s, es[0]), es[1..])
  }

  lemma {:induction false} RunAlike(s: Link, t: Link, es: seq<Event>)
    requires Alike(s, t)
    ensures Alike(Run(s, es), Run(t, es)) && AllNotes(s, es) == AllNotes(t, es)
    ensures Run(s, es).log == s.log + AllNotes(s, es)
    decreases |es|
  {
    if es != [] {
      StepAlike(s, t, es[0]);
      StepAddsNotes(s, es[0]);
      RunAlike(Step(s, es[0]), Step(t, es[0]), es[1..]);
    }
  }

  lemma {:induction false} ReportsConcat(a: seq<Note>, b: seq<Note>)
    ensures ReportsIn(a + b) == ReportsIn(a) + ReportsIn(b)
  {
    if a == [] {
      assert a + b == b;
    } else {
      ReportsConcat(a[1..], b);
      assert (a + b)[1..] == a[1..] + b;
    }
  }

  lemma ReportsInsert(head: seq<Note>, box: byte, pkg: byte, tail: seq<Note>)
    ensures ReportsIn(head + tail) == ReportsIn(head) + ReportsIn(tail)
    ensures ReportsIn(head + [Forwarded(ReportArrived(box, pkg))] + tail) ==
      ReportsIn(head) + [ReportArrived(box, pkg)] + ReportsIn(tail)
  {
    var note := Forwarded(ReportArrived(box, pkg));
    ReportsConcat(head, tail);
    ReportsConcat(head, [note]);
    ReportsConcat(head + [note], tail);
    assert ReportsIn([note]) == [ReportArrived(box, pkg)];
  }

  /**
   An extra PACKAGE_ARRIVED, at any point of any run, changes nothing in the link
   and adds one report at that point for the processing thread.
   */
  lemma ExtraArrivalAddsOneReport(s: Link, before: seq<Event>, after: seq<Event>, box: byte, pkg: byte)
    ensures var plain, extra := Run(s, before + after), Run(s, before + ([Deliver(PackageArrived(box, pkg))] + after));
      var head, tail := ReportsIn(Run(s, before).log), ReportsIn(AllNotes(Run(s, before), after));
      && Alike(plain, extra)
      && ReportsIn(plain.log) == head + tail
      && ReportsIn(extra.log) == head + [ReportArrived(box, pkg)] + tail
  {
    var arrival := Deliver(PackageArrived(box, pkg));
    var mid := Run(s, before);
    var mid' := Step(mid, arrival);
    RunConcat(s, before, after);
    RunConcat(s, before, [arrival] + after);
    RunTakes(mid, arrival, after);
    RunAlike(mid, mid', after);
    RunAlike(mid', mid, after);
    ReportsInsert(mid.log, box, pkg, AllNotes(mid, after));
  }
}
