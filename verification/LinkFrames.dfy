/** What each frame on the air is: the message popped last, or the question whether its conveyor is ready for it. */
module LinkFrames {
  import opened Messages
  import opened Links
  import opened LinkProofs
  import opened LinkGate

  /** The frame carries the message, or asks the message's conveyor for its state before a package is added. */
  predicate Serves(f: Frame, m: Message) {
    && f.conveyor == Low(m.conveyor)
    && ((f.id == Low(m.id) && f.data == m.data) || (m.id == 10 && f.id == 0 && f.data == []))
  }

  ghost predicate ServesLast(log: seq<Note>, i: nat)
    requires i < |log| && log[i].Sent?
  {
    exists m :: Since(log, i, m) && Serves(log[i].frame, m)
  }

  /** Every frame serves the message popped last before it. */
  ghost predicate Served(log: seq<Note>) {
    forall i :: 0 <= i < |log| && log[i].Sent? ==> ServesLast(log, i)
  }

  lemma ServedGrows(log: seq<Note>, note: Note, m: Message)
    requires Served(log)
    requires note.Sent? ==> Since(log, |log|, m) && Serves(note.frame, m)
    ensures Served(log + [note])
  {
    var log' := log + [note];
    forall i | 0 <= i < |log'| && log'[i].Sent?
      ensures ServesLast(log', i)
    {
      if i < |log| {
        assert log'[i] == log[i];
        var k :| Since(log, i, k) && Serves(log[i].frame, k);
        SinceIsLocal(log, [note], i, k);
      } else {
        SinceIsLocal(log, [note], |log|, m);
      }
    }
  }

  /** In every phase, what a step sends serves the phase's message; without one, nothing is sent. */
  lemma StepServes(s: Link, e: Event)
    requires SafeInv(s)
    ensures forall i :: 0 <= i < |NotesOf(s, e)| && NotesOf(s, e)[i].Sent? ==>
      !PhaseOf(s).Idle? && Serves(NotesOf(s, e)[i].frame, PhaseOf(s).msg)
    ensures |NotesOf(s, e)| <= 2
    ensures !PhaseOf(s).Idle? ==> Popless(NotesOf(s, e))
  {
  }

  lemma StepServed(s: Link, e: Event)
    requires SafeInv(s) && PhaseLogged(s.log, PhaseOf(s)) && Served(s.log)
    ensures Served(Step(s, e).log)
  {
    var notes, log := NotesOf(s, e), s.log;
    StepAddsNotes(s, e);
    StepServes(s, e);
    var m := if PhaseOf(s).Idle? then Message(0, 0, []) else PhaseOf(s).msg;
    if |notes| == 0 {
      assert log + notes == log;
    } else if |notes| == 1 {
      assert notes == [notes[0]];
      ServedGrows(log, notes[0], m);
    } else {
      var mid := log + [notes[0]];
      ServedGrows(log, notes[0], m);
      if notes[1].Sent? {
        SinceGrows(log, [notes[0]], m);
      }
      ServedGrows(mid, notes[1], m);
      assert log + notes == mid + [notes[1]];
    }
  }

  lemma {:induction false} RunServed(s: Link, es: seq<Event>)
    requires SafeInv(s) && AllBuilt(es)
    requires Gated(s.log) && PhaseLogged(s.log, PhaseOf(s)) && Served(s.log)
    ensures Served(Run(s, es).log)
    decreases |es|
  {
    if es != [] {
      BuiltTail(es);
      StepSafe(s, es[0]);
      StepGated(s, es[0]);
      StepServed(s, es[0]);
      RunServed(Step(s, es[0]), es[1..]);
    }
  }

  /**
   Over every run since start-up, each frame goes to the conveyor of the message
   popped last before it; it carries that message, or asks that conveyor for its
   state if the message adds a package.
   */
  lemma FramesServeTheirMessage(es: seq<Event>)
    requires AllBuilt(es)
    ensures Served(Run(INIT, es).log)
  {
    RunServed(INIT, es);
  }
}
