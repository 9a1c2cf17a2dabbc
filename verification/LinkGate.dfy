/** Packages are only sent to a conveyor that reported itself available. */
module LinkGate {
  import opened Messages
  import opened Links
  import opened LinkProofs

  // ---- the availability gate ----

  predicate NoPop(log: seq<Note>, p: int, n: nat) {
    forall i :: p < i < n && 0 <= i < |log| ==> !log[i].Popped?
  }

  /** `m` is the message popped last before position `n`. */
  ghost predicate Since(log: seq<Note>, n: nat, m: Message) {
    exists p: nat :: p < n <= |log| && log[p] == Popped(m) && NoPop(log, p, n)
  }

  /** Since `m` was popped, and before position `n`, its conveyor reported itself available. */
  ghost predicate GrantedSince(log: seq<Note>, n: nat, m: Message) {
    exists p: nat, a: nat :: p < a < n <= |log| && log[p] == Popped(m) && NoPop(log, p, n)
      && log[a] == Availability(m.conveyor, true)
  }

  predicate IsAdd(note: Note) {
    note.Sent? && note.frame.id == ADD_PACKAGE_ID
  }

  ghost predicate Authorised(log: seq<Note>, i: nat)
    requires i < |log| && log[i].Sent?
  {
    exists m :: GrantedSince(log, i, m) && log[i].frame == FrameOf(m, log[i].frame.time)
  }

  /** Every ADD_PACKAGE frame was preceded by an availability report for the very message it carries. */
  ghost predicate Gated(log: seq<Note>) {
    forall i :: 0 <= i < |log| && IsAdd(log[i]) ==> Authorised(log, i)
  }

  /** What the log says about the phase's message: it was popped last and, if it adds a package and was sent, granted. */
  ghost predicate PhaseLogged(log: seq<Note>, p: Phase) {
    match p
    case Idle => true
    case Holding(m) => Since(log, |log|, m)
    case Polling(m) => Since(log, |log|, m)
    case Awaiting(m) => Since(log, |log|, m) && (m.id == ADD_PACKAGE_ID ==> GrantedSince(log, |log|, m))
  }

  predicate Popless(notes: seq<Note>) {
    forall i :: 0 <= i < |notes| ==> !notes[i].Popped?
  }

  lemma SinceGrows(log: seq<Note>, notes: seq<Note>, m: Message)
    requires Since(log, |log|, m) && Popless(notes)
    ensures Since(log + notes, |log + notes|, m)
  {
    var p: nat :| p < |log| && log[p] == Popped(m) && NoPop(log, p, |log|);
    assert (log + notes)[p] == log[p];
    assert NoPop(log + notes, p, |log + notes|);
  }

  lemma SinceIsLocal(log: seq<Note>, notes: seq<Note>, n: nat, m: Message)
    requires n <= |log|
    ensures Since(log + notes, n, m) <==> Since(log, n, m)
  {
    var log' := log + notes;
    assert forall i :: 0 <= i < |log| ==> log'[i] == log[i];
    if Since(log', n, m) {
      var p: nat :| p < n <= |log'| && log'[p] == Popped(m) && NoPop(log', p, n);
      assert NoPop(log, p, n);
    }
    if Since(log, n, m) {
      var p: nat :| p < n <= |log| && log[p] == Popped(m) && NoPop(log, p, n);
      assert NoPop(log', p, n);
    }
  }

  lemma GrantedGrows(log: seq<Note>, notes: seq<Note>, m: Message)
    requires GrantedSince(log, |log|, m) && Popless(notes)
    ensures GrantedSince(log + notes, |log + notes|, m)
  {
    var p: nat, a: nat :| p < a < |log| && log[p] == Popped(m) && NoPop(log, p, |log|)
      && log[a] == Availability(m.conveyor, true);
    assert (log + notes)[p] == log[p] && (log + notes)[a] == log[a];
    assert NoPop(log + notes, p, |log + notes|);
  }

  lemma GrantedStays(log: seq<Note>, notes: seq<Note>, n: nat, m: Message)
    requires n <= |log| && GrantedSince(log, n, m)
    ensures GrantedSince(log + notes, n, m)
  {
    var p: nat, a: nat :| p < a < n && log[p] == Popped(m) && NoPop(log, p, n)
      && log[a] == Availability(m.conveyor, true);
    assert (log + notes)[p] == log[p] && (log + notes)[a] == log[a];
    assert NoPop(log + notes, p, n);
  }

  lemma PopStarts(log: seq<Note>, m: Message)
    ensures Since(log + [Popped(m)], |log| + 1, m)
  {
    assert (log + [Popped(m)])[|log|] == Popped(m);
    assert NoPop(log + [Popped(m)], |log|, |log| + 1);
  }

  lemma AvailabilityGrants(log: seq<Note>, m: Message)
    requires Since(log, |log|, m)
    ensures GrantedSince(log + [Availability(m.conveyor, true)], |log| + 1, m)
  {
    var log' := log + [Availability(m.conveyor, true)];
    var p: nat :| p < |log| && log[p] == Popped(m) && NoPop(log, p, |log|);
    assert log'[p] == log[p] && log'[|log|] == Availability(m.conveyor, true);
    assert NoPop(log', p, |log'|);
  }

  /** One more note: it must be authorised only if it is an ADD_PACKAGE frame. */
  lemma GatedGrows(log: seq<Note>, note: Note, m: Message)
    requires Gated(log)
    requires IsAdd(note) ==> GrantedSince(log, |log|, m) && note.frame == FrameOf(m, note.frame.time)
    ensures Gated(log + [note])
  {
    var log' := log + [note];
    forall i | 0 <= i < |log'| && IsAdd(log'[i])
      ensures Authorised(log', i)
    {
      if i < |log| {
        var k :| GrantedSince(log, i, k) && log[i].frame == FrameOf(k, log[i].frame.time);
        GrantedStays(log, [note], i, k);
      } else {
        GrantedStays(log, [note], |log|, m);
      }
    }
  }

  lemma HoldingGate(s: Link, e: Event, m: Message)
    requires InPhase(s, Holding(m)) && Gated(s.log) && Since(s.log, |s.log|, m)
    ensures var log := s.log + NotesOf(s, e);
      Gated(log) && PhaseLogged(log, NextPhase(Holding(m), s.tx, e))
  {
    var notes := NotesOf(s, e);
    SinceGrows(s.log, notes, m);
    if notes == [] {
      assert s.log + notes == s.log;
    } else {
      assert |notes| == 1;
      GatedGrows(s.log, notes[0], m);
    }
  }

  lemma PollingGate(s: Link, e: Event, m: Message)
    requires InPhase(s, Polling(m)) && Gated(s.log) && Since(s.log, |s.log|, m) && !AcksPoll(s, e)
    ensures var log := s.log + NotesOf(s, e);
      Gated(log) && PhaseLogged(log, NextPhase(Polling(m), s.tx, e))
  {
    var notes := NotesOf(s, e);
    SinceGrows(s.log, notes, m);
    if notes == [] {
      assert s.log + notes == s.log;
    } else if |notes| == 1 {
      GatedGrows(s.log, notes[0], m);
    } else {
      var mid := s.log + [notes[0]];
      GatedGrows(s.log, notes[0], m);
      if e.response.available {
        AvailabilityGrants(s.log, m);
        GrantedGrows(mid, [notes[1]], m);
      }
      GatedGrows(mid, notes[1], m);
      assert s.log + notes == mid + [notes[1]];
    }
  }

  lemma AwaitingGate(s: Link, e: Event, m: Message)
    requires InPhase(s, Awaiting(m)) && Gated(s.log) && PhaseLogged(s.log, Awaiting(m))
    ensures var log := s.log + NotesOf(s, e);
      Gated(log) && PhaseLogged(log, NextPhase(Awaiting(m), s.tx, e))
  {
    var notes := NotesOf(s, e);
    SinceGrows(s.log, notes, m);
    if m.id == ADD_PACKAGE_ID {
      GrantedGrows(s.log, notes, m);
    }
    if notes == [] {
      assert s.log + notes == s.log;
    } else {
      assert |notes| == 1;
      GatedGrows(s.log, notes[0], m);
    }
  }

  lemma IdleGate(s: Link, e: Event)
    requires InPhase(s, Idle) && Gated(s.log)
    ensures var log := s.log + NotesOf(s, e);
      Gated(log) && PhaseLogged(log, NextPhase(Idle, s.tx, e))
  {
    var notes := NotesOf(s, e);
    if notes == [] {
      assert s.log + notes == s.log;
    } else {
      assert |notes| == 1;
      GatedGrows(s.log, notes[0], Poll(0));
      if e.Pop? {
        PopStarts(s.log, s.tx[0]);
      }
    }
  }

  /** Acknowledging a poll, and everything after it, sends nothing. */
  lemma WedgedGate(s: Link, e: Event)
    requires Wedged(s) || (LinkInv(s) && AcksPoll(s, e))
    requires Gated(s.log)
    ensures Gated(s.log + NotesOf(s, e)) && PhaseOf(Step(s, e)) == Idle
  {
    var notes := NotesOf(s, e);
    if Wedged(s) {
      WedgedNotes(s, e);
      WedgedStep(s, e);
    } else {
      PollAckWedges(s, e);
      assert notes == [Acked(e.response.id)];
    }
    if notes == [] {
      assert s.log + notes == s.log;
    } else {
      GatedGrows(s.log, notes[0], Poll(0));
    }
  }

  lemma StepGated(s: Link, e: Event)
    requires SafeInv(s) && BuiltByHandler(e)
    requires Gated(s.log) && PhaseLogged(s.log, PhaseOf(s))
    ensures Gated(Step(s, e).log) && PhaseLogged(Step(s, e).log, PhaseOf(Step(s, e)))
  {
    StepAddsNotes(s, e);
    if Wedged(s) || AcksPoll(s, e) {
      WedgedGate(s, e);
    } else {
      StepRefines(s, e);
      match PhaseOf(s)
      case Idle => IdleGate(s, e);
      case Holding(m) => HoldingGate(s, e, m);
      case Polling(m) => PollingGate(s, e, m);
      case Awaiting(m) => AwaitingGate(s, e, m);
    }
  }

  lemma {:induction false} RunGated(s: Link, es: seq<Event>)
    requires SafeInv(s) && AllBuilt(es)
    requires Gated(s.log) && PhaseLogged(s.log, PhaseOf(s))
    ensures Gated(Run(s, es).log)
    decreases |es|
  {
    if es != [] {
      BuiltTail(es);
      StepSafe(s, es[0]);
      StepGated(s, es[0]);
      RunGated(Step(s, es[0]), es[1..]);
    }
  }

  /** In every run since start-up, packages are added only after their conveyor said it was available. */
  lemma AddsAreGated(es: seq<Event>)
    requires AllBuilt(es)
    ensures Gated(Run(INIT, es).log)
  {
    RunGated(INIT, es);
  }
}
