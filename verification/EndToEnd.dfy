/** From the conveyor system's commands to what can be read off the air, and from the link's reports to the boxes. */
module EndToEnd {
  import opened Arrivals
  import opened CentralTypes
  import opened Messages
  import opened Conveyors
  import opened Graphs
  import opened Links
  import opened LinkArrivals
  import opened LinkTrace
  import opened Replies
  import opened Sequences
  import opened Systems
  import opened SystemProofs
  import opened RoutingProofs

  /** The commands among the system's outputs. */
  function AntCommands(out: seq<Output>): seq<Command> {
    if out == [] then [] else (if out[0].ToAnt? then [out[0].cmd] else []) + AntCommands(out[1..])
  }

  function Encoded(cmds: seq<Command>): seq<Message> {
    seq(|cmds|, i requires 0 <= i < |cmds| => Encode(cmds[i]))
  }

  /** What can be read out of a frame. */
  function Read(f: Frame): Option<Command> {
    Decode(Message(f.id, f.conveyor, f.data))
  }

  /** Every number in the command fits the byte it travels in. */
  predicate Addressable(cmd: Command) {
    Fits(cmd) && IsByte(Encode(cmd).conveyor)
  }

  lemma FrameCarriesCommand(cmd: Command, time: byte)
    requires Addressable(cmd)
    ensures Read(FrameOf(Encode(cmd), time)) == Some(cmd)
  {
  }

  lemma {:induction false} EncodedAreBuilt(es: seq<Event>)
    requires forall m :: m in Enqueued(es) ==> Queueable(m)
    ensures AllBuilt(es)
  {
    if es != [] {
      EncodedAreBuilt(es[1..]);
      forall i | 0 <= i < |es|
        ensures BuiltByHandler(es[i])
      {
        if i > 0 {
          assert es[i] == es[1..][i - 1];
        }
      }
    }
  }

  /**
   At any moment of any run in which the link carries the system's commands, the
   frames put on the air read as a prefix of them, in order and each once; and as
   all of them, once the queue is empty and nothing popped is still unsent.
   */
  lemma CommandsArriveInOrder(out: seq<Output>, es: seq<Event>)
    requires Enqueued(es) == Encoded(AntCommands(out))
    requires forall i :: 0 <= i < |AntCommands(out)| ==> Addressable(AntCommands(out)[i])
    ensures var s, cmds := Links.Run(INIT, es), AntCommands(out);
      && |Delivered(s.log)| <= |cmds|
      && (forall i :: 0 <= i < |Delivered(s.log)| ==> Read(Delivered(s.log)[i]) == Some(cmds[i]))
      && (s.tx == [] && Gap(s) == [] <==> |Delivered(s.log)| == |cmds|)
  {
    var s, cmds := Links.Run(INIT, es), AntCommands(out);
    forall m | m in Enqueued(es)
      ensures Queueable(m)
    {
      var i :| 0 <= i < |cmds| && m == Encode(cmds[i]);
      EncodeIsQueueable(cmds[i]);
    }
    EncodedAreBuilt(es);
    EverythingOnceInOrder(es);
    var got := Delivered(s.log);
    var all := got + Gap(s) + Bodies(s.tx);
    assert all == Bodies(Encoded(cmds));
    forall i | 0 <= i < |got|
      ensures Read(got[i]) == Some(cmds[i])
    {
      assert got[i] == all[i] == FrameOf(Encode(cmds[i]), 0);
      FrameCarriesCommand(cmds[i], 0);
    }
  }

  // ---- routes, as the frames on the air tell them ----

  /** The commands that can be read out of a sequence of frames. */
  function Heard(w: seq<Frame>): seq<Command> {
    if w == [] then [] else Heard(w[..|w| - 1]) + match Read(w[|w| - 1])
      case None => []
      case Some(cmd) => [cmd]
  }

  lemma {:induction false} HeardAll(w: seq<Frame>, cmds: seq<Command>)
    requires |w| <= |cmds| && forall i :: 0 <= i < |w| ==> Read(w[i]) == Some(cmds[i])
    ensures Heard(w) == cmds[..|w|]
  {
    if w != [] {
      var n := |w| - 1;
      HeardAll(w[..n], cmds);
      assert cmds[..n] + [cmds[n]] == cmds[..|w|];
    }
  }

  lemma {:induction false} CommandsConcat(a: seq<Output>, b: seq<Output>)
    ensures AntCommands(a + b) == AntCommands(a) + AntCommands(b)
  {
    if a == [] {
      assert a + b == b;
    } else {
      CommandsConcat(a[1..], b);
      HeadTail(a, b);
      CommandsFirst(a[0], a[1..] + b);
      Associate(AntCommands([a[0]]), AntCommands(a[1..]), AntCommands(b));
      assert a == [a[0]] + a[1..];
      CommandsFirst(a[0], a[1..]);
    }
  }

  lemma CommandsFirst(o: Output, out: seq<Output>)
    ensures AntCommands([o] + out) == AntCommands([o]) + AntCommands(out)
  {
    assert ([o] + out)[1..] == out;
  }

  lemma {:induction false} CommandsOfAntAll(cmds: seq<Command>)
    ensures AntCommands(AntAll(cmds)) == cmds
  {
    if cmds != [] {
      CommandsOfAntAll(cmds[1..]);
      assert AntAll(cmds)[1..] == AntAll(cmds[1..]);
    }
  }

  /** Accepting a box sends its connection, then its route. */
  lemma CommandsOfAdd(c: Convs, add: Op)
    requires add.AddBox? && Allowed(c, add) && RefusalOf(c, add.conveyor, add.location) == Accepted
    ensures AntCommands(Outputs(c, add)) ==
      [ConnectBox(add.conveyor, add.box, add.location)] + Plan(add.route, add.box)
  {
    var first := ToAnt(ConnectBox(add.conveyor, add.box, add.location));
    var reply := ToWeb(AddBoxReply(add.box, add.conveyor, Accepted));
    var plan := AntAll(Plan(add.route, add.box));
    CommandsOfAntAll(Plan(add.route, add.box));
    CommandsConcat([first] + plan, [reply]);
    CommandsConcat([first], plan);
    assert AntCommands([reply]) == [] && AntCommands([first]) == [first.cmd];
  }

  lemma {:induction false} CommandsWithoutHops(out: seq<Output>, box: int)
    requires NoHopsFor(out, box)
    ensures NoHopsFor(AntAll(AntCommands(out)), box)
  {
    if out != [] {
      assert forall i :: 0 <= i < |out[1..]| ==> out[1..][i] == out[i + 1];
      CommandsWithoutHops(out[1..], box);
      var cmds, rest := AntCommands(out), AntCommands(out[1..]);
      assert NoHopsFor(AntAll(rest), box);
      forall i | 0 <= i < |cmds|
        ensures !(cmds[i].RoutingPlan? && cmds[i].box == box)
      {
        assert out[0] == out[0];
        var at := i - (|cmds| - |rest|);
        if at >= 0 {
          assert cmds[i] == rest[at] && AntAll(rest)[at] == ToAnt(rest[at]);
        }
      }
    }
  }

  /** Any prefix of the commands that includes a box's route makes a table that holds the route. */
  lemma PrefixHoldsRoute(earlier: seq<Command>, route: seq<int>, box: int, later: seq<Command>, k: nat)
    requires Simple(route) && NoHopsFor(AntAll(later), box)
    requires |earlier + Plan(route, box)| <= k <= |earlier + Plan(route, box) + later|
    ensures Holds(AntAll((earlier + Plan(route, box) + later)[..k]), box, route)
  {
    var plan := Plan(route, box);
    var rest := later[..k - |earlier + plan|];
    assert NoHopsFor(AntAll(rest), box) by {
      assert forall i :: 0 <= i < |rest| ==> AntAll(rest)[i] == AntAll(later)[i];
    }
    PlanHolds(AntAll(earlier), route, box, AntAll(rest));
    assert AntAll((earlier + plan + later)[..k]) == AntAll(earlier) + AntAll(plan) + AntAll(rest);
  }

  lemma {:induction false} OutputsSplit(c: Convs, a: seq<Op>, b: seq<Op>)
    requires AllAllowed(c, a) && AllAllowed(Systems.Run(c, a), b)
    ensures AllAllowed(c, a + b)
    ensures RunOutputs(c, a + b) == RunOutputs(c, a) + RunOutputs(Systems.Run(c, a), b)
    decreases |a|
  {
    if a == [] {
      assert a + b == b;
    } else {
      var op, rest := a[0], a[1..];
      var c' := Next(c, op);
      OutputsSplit(c', rest, b);
      RunTakes(c, op, rest + b);
      HeadTail(a, b);
      Associate(Outputs(c, op), RunOutputs(c', rest), RunOutputs(Systems.Run(c', rest), b));
    }
  }

  lemma JustOne(c: Convs, op: Op)
    requires Allowed(c, op)
    ensures AllAllowed(c, [op]) && Systems.Run(c, [op]) == Next(c, op) && RunOutputs(c, [op]) == Outputs(c, op)
  {
    RunTakes(c, op, []);
    assert [op] + [] == [op];
  }

  lemma OutputsAround(before: seq<Op>, op: Op, later: seq<Op>)
    requires AllAllowed(map[], before) && Allowed(Systems.Run(map[], before), op)
    requires AllAllowed(Next(Systems.Run(map[], before), op), later)
    ensures var c := Systems.Run(map[], before);
      && AllAllowed(map[], before + [op]) && AllAllowed(map[], before + [op] + later)
      && RunOutputs(map[], before + [op]) == RunOutputs(map[], before) + Outputs(c, op)
      && RunOutputs(map[], before + [op] + later) ==
           RunOutputs(map[], before) + Outputs(c, op) + RunOutputs(Next(c, op), later)
  {
    var c := Systems.Run(map[], before);
    JustOne(c, op);
    OutputsSplit(map[], before, [op]);
    RunSplit(map[], before, [op]);
    OutputsSplit(map[], before + [op], later);
  }

  /** Whatever the system sends around a box's route, reading far enough gives a table that holds the route. */
  lemma HeardHoldsRoute(c: Convs, earlier: seq<Output>, add: Op, later: seq<Op>, k: nat)
    requires add.AddBox? && Allowed(c, add) && AllAllowed(Next(c, add), later)
    requires RefusalOf(c, add.conveyor, add.location) == Accepted && Simple(add.route)
    requires NoneAccepted(Next(c, add), later, add.box)
    requires var out := earlier + Outputs(c, add) + RunOutputs(Next(c, add), later);
      |AntCommands(earlier + Outputs(c, add))| <= k <= |AntCommands(out)|
    ensures var out := earlier + Outputs(c, add) + RunOutputs(Next(c, add), later);
      Holds(AntAll(AntCommands(out)[..k]), add.box, add.route)
  {
    var after := RunOutputs(Next(c, add), later);
    var first := ConnectBox(add.conveyor, add.box, add.location);
    CommandsConcat(earlier + Outputs(c, add), after);
    CommandsConcat(earlier, Outputs(c, add));
    CommandsOfAdd(c, add);
    RunWithoutHops(Next(c, add), later, add.box);
    CommandsWithoutHops(after, add.box);
    var before, plan := AntCommands(earlier) + [first], Plan(add.route, add.box);
    assert AntCommands(earlier) + ([first] + plan) == before + plan;
    PrefixHoldsRoute(before, add.route, add.box, AntCommands(after), k);
  }

  /**
   End to end, over the air. The system runs from start-up and accepts a box; the
   link carries its commands. From the moment that the box's route is on the air,
   and until a reconfiguration or another box under the same id is accepted,
   following what was put on the air moves a package for the box from the input
   conveyor along a shortest path of the current graph, and keeps it there.
   */
  lemma RoutesWorkOverTheAir(before: seq<Op>, add: Op, later: seq<Op>, es: seq<Event>, hops: nat)
    requires AllAllowed(map[], before)
    requires var c := Systems.Run(map[], before);
      && add.AddBox? && Allowed(c, add) && RefusalOf(c, add.conveyor, add.location) == Accepted
      && AllAllowed(Next(c, add), later) && NoneAccepted(Next(c, add), later, add.box)
    requires forall i :: 0 <= i < |later| ==> !later[i].SetState?
    requires AllAllowed(map[], before + [add]) && AllAllowed(map[], before + [add] + later)  // by OutputsAround
    requires var cmds := AntCommands(RunOutputs(map[], before + [add] + later));
      && Enqueued(es) == Encoded(cmds)
      && (forall i :: 0 <= i < |cmds| ==> Addressable(cmds[i]))
    requires |Delivered(Links.Run(INIT, es).log)| >= |AntCommands(RunOutputs(map[], before + [add]))|
    ensures var g := Net(Systems.Run(Next(Systems.Run(map[], before), add), later));
      var heard := AntAll(Heard(Delivered(Links.Run(INIT, es).log)));
      var last := |add.route| - 1;
      && IsShortest(g, add.route, INPUT_CONVEYOR_ID, add.conveyor)
      && Follow(heard, add.box, INPUT_CONVEYOR_ID, hops) == add.route[if hops < last then hops else last]
      && (Follow(heard, add.box, INPUT_CONVEYOR_ID, hops) == add.conveyor <==> hops >= last)
  {
    var c, got := Systems.Run(map[], before), Delivered(Links.Run(INIT, es).log);
    var earlier, out := RunOutputs(map[], before), RunOutputs(map[], before + [add] + later);
    OutputsAround(before, add, later);
    CommandsArriveInOrder(out, es);
    HeardAll(got, AntCommands(out));
    RouteStaysShortest(c, add, later);
    HeardHoldsRoute(c, earlier, add, later, |got|);
    FollowWalksRoute(AntAll(Heard(got)), add.box, add.route, 0, hops);
  }

  // ---- reports, as the processing thread handles them ----

  /** The operation that a report triggers. */
  function OpOf(r: Report): Op {
    match r
    case ReportArrived(box, pkg) => PackageReceived(pkg, box)
    case ReportCleared(box, packages) => ClearCompleted(box, packages)
  }

  /** A report of cleared packages is passed on to the client as it is, one of an arrival if the box exists. */
  lemma ReportsReachTheClient(c: Convs, box: byte, packages: set<int>, pkg: byte, k: int)
    ensures FoundAt(c, box, k) ==>
      && Allowed(c, OpOf(ReportCleared(box, packages)))
      && Outputs(c, OpOf(ReportCleared(box, packages))) == [ToWeb(ClearBoxReply(box, Some(packages)))]
      && Outputs(c, OpOf(ReportArrived(box, pkg))) == [ToWeb(PackageReceivedReply(pkg, box))]
    ensures Nowhere(c, box) ==> Outputs(c, OpOf(ReportArrived(box, pkg))) == []
  {
    if FoundAt(c, box, k) {
      LookupFinds(c, box, k);
      ClearAnswer(c, box, packages, k);
    }
    ArrivalAnswer(c, box, pkg, k);
  }

  function OpsOf(reports: seq<Report>): seq<Op> {
    seq(|reports|, i requires 0 <= i < |reports| => OpOf(reports[i]))
  }

  /** The operations of a run that reports triggered; the others come from the web. */
  function ReportOps(ops: seq<Op>): seq<Op> {
    if ops == [] then []
    else (if ops[0].PackageReceived? || ops[0].ClearCompleted? then [ops[0]] else []) + ReportOps(ops[1..])
  }

  lemma {:induction false} ReportOpsConcat(a: seq<Op>, b: seq<Op>)
    ensures ReportOps(a + b) == ReportOps(a) + ReportOps(b)
  {
    if a == [] {
      assert a + b == b;
    } else {
      ReportOpsConcat(a[1..], b);
      HeadTail(a, b);
      ReportOpsFirst(a[0], a[1..] + b);
      Associate(ReportOps([a[0]]), ReportOps(a[1..]), ReportOps(b));
      assert a == [a[0]] + a[1..];
      ReportOpsFirst(a[0], a[1..]);
    }
  }

  lemma ReportOpsFirst(op: Op, ops: seq<Op>)
    ensures ReportOps([op] + ops) == ReportOps([op]) + ReportOps(ops)
  {
    assert ([op] + ops)[1..] == ops;
  }

  lemma OpsOfConcat(a: seq<Report>, b: seq<Report>)
    ensures OpsOf(a + b) == OpsOf(a) + OpsOf(b)
  {
  }

  /** Inserting a report among others inserts its operation among theirs. */
  lemma ReportInserted(head: seq<Report>, box: byte, pkg: byte, tail: seq<Report>, handled: seq<Op>, later: seq<Op>)
    requires ReportOps(handled) == OpsOf(head) && ReportOps(later) == OpsOf(tail)
    ensures ReportOps(handled + later) == OpsOf(head + tail)
    ensures ReportOps(handled + [PackageReceived(pkg, box)] + later) ==
      OpsOf(head + [ReportArrived(box, pkg)] + tail)
  {
    var op, report := PackageReceived(pkg, box), ReportArrived(box, pkg);
    OpsOfConcat(head, tail);
    OpsOfConcat(head, [report]);
    OpsOfConcat(head + [report], tail);
    assert OpsOf([report]) == [op];
    ReportOpsConcat(handled, later);
    ReportOpsConcat(handled, [op]);
    ReportOpsConcat(handled + [op], later);
    assert ReportOps([op]) == [op];
  }

  /** The processing thread's half: a repeated arrival changes no box. */
  lemma RepeatChangesNothing(start: seq<Op>, between: seq<Op>, later: seq<Op>, box: int, pkg: int)
    requires AllAllowed(map[], start)
    requires var c := Next(Systems.Run(map[], start), PackageReceived(pkg, box));
      && AllAllowed(c, between) && AllAllowed(Systems.Run(c, between), later)
      && NeverReopened(c, between, box, pkg)
    ensures var handled := start + ([PackageReceived(pkg, box)] + between);
      var once, twice := handled + later, handled + [PackageReceived(pkg, box)] + later;
      && AllAllowed(map[], once) && AllAllowed(map[], twice)
      && Systems.Run(map[], once) == Systems.Run(map[], twice)
  {
    var c, op := Systems.Run(map[], start), PackageReceived(pkg, box);
    DuplicateArrivalHarmless(c, between, later, box, pkg);
    StartThen(start, op, between + later);
    StartThen(start, op, between + [op] + later);
    Regrouped(start, [op], between, [op], later);
  }

  lemma Regrouped(a: seq<Op>, b: seq<Op>, c: seq<Op>, d: seq<Op>, e: seq<Op>)
    ensures (a + (b + c)) + e == a + (b + (c + e))
    ensures (a + (b + c)) + d + e == a + (b + (c + d + e))
  {
  }

  lemma StartThen(start: seq<Op>, op: Op, ops: seq<Op>)
    requires AllAllowed(map[], start) && Allowed(Systems.Run(map[], start), op)
    requires AllAllowed(Next(Systems.Run(map[], start), op), ops)
    ensures AllAllowed(map[], start + ([op] + ops))
    ensures Systems.Run(map[], start + ([op] + ops)) == Systems.Run(Next(Systems.Run(map[], start), op), ops)
  {
    var c := Systems.Run(map[], start);
    assert ([op] + ops)[1..] == ops;
    assert AllAllowed(c, [op] + ops);
    RunSplit(map[], start, [op] + ops);
  }

  /**
   Duplicate arrivals are harmless end to end, for a processing thread that
   handles the link's reports in order, among web requests. A package arrives in
   a box; at any later point of the link's run, before it is in transit to the
   box anew, its arrival is delivered once more. The link's state is the same,
   exactly one operation more is handled, and every box ends up the same.
   */
  lemma DuplicateArrivalEndToEnd(before: seq<Event>, after: seq<Event>, box: byte, pkg: byte,
                                 start: seq<Op>, between: seq<Op>, later: seq<Op>)
    requires AllAllowed(map[], start)
    requires var c := Next(Systems.Run(map[], start), PackageReceived(pkg, box));
      && AllAllowed(c, between) && AllAllowed(Systems.Run(c, between), later)
      && NeverReopened(c, between, box, pkg)
    requires ReportOps(start + ([PackageReceived(pkg, box)] + between)) == OpsOf(ReportsIn(Links.Run(INIT, before).log))
    requires ReportOps(later) == OpsOf(ReportsIn(AllNotes(Links.Run(INIT, before), after)))
    ensures var plain := Links.Run(INIT, before + after);
      var extra := Links.Run(INIT, before + ([Deliver(PackageArrived(box, pkg))] + after));
      var handled := start + ([PackageReceived(pkg, box)] + between);
      var once, twice := handled + later, handled + [PackageReceived(pkg, box)] + later;
      && Alike(plain, extra)
      && ReportOps(once) == OpsOf(ReportsIn(plain.log)) && ReportOps(twice) == OpsOf(ReportsIn(extra.log))
      && AllAllowed(map[], once) && AllAllowed(map[], twice)
      && Systems.Run(map[], once) == Systems.Run(map[], twice)
  {
    var head, tail := ReportsIn(Links.Run(INIT, before).log), ReportsIn(AllNotes(Links.Run(INIT, before), after));
    ExtraArrivalAddsOneReport(INIT, before, after, box, pkg);
    ReportInserted(head, box, pkg, tail, start + ([PackageReceived(pkg, box)] + between), later);
    RepeatChangesNothing(start, between, later, box, pkg);
  }
}
