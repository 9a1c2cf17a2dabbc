/** What the conveyors have been told, over whole runs: their connections, their boxes, and commands for those boxes. */
module Announcements {
  import opened CentralTypes
  import opened Conveyors
  import opened Messages
  import opened Sequences
  import opened Systems
  import opened SystemProofs

  // ---- connections ----

  /** A conveyor's slots after being told of one more connection. */
  function Apply(slots: seq<Slot>, cmd: Command, k: int): (r: seq<Slot>)
    ensures |r| == |slots|
  {
    if cmd.Connect? && cmd.conveyor == k && 0 <= cmd.location < |slots| then
      slots[cmd.location := Slot(cmd.target, cmd.role)]
    else slots
  }

  /** The slots that a conveyor makes out of its commands. */
  function Told(cmds: seq<Command>, k: int): (slots: seq<Slot>)
    ensures |slots| == 4
  {
    if cmds == [] then EMPTY_SLOTS else Apply(Told(cmds[..|cmds| - 1], k), cmds[|cmds| - 1], k)
  }

  lemma ToldOne(cmds: seq<Command>, cmd: Command, k: int)
    ensures Told(cmds + [cmd], k) == Apply(Told(cmds, k), cmd, k)
  {
    assert (cmds + [cmd])[..|cmds|] == cmds;
  }

  lemma {:induction false} ToldOthers(cmds: seq<Command>, more: seq<Command>, k: int)
    requires forall i :: 0 <= i < |more| ==> more[i].Connect? && more[i].conveyor != k
    ensures Told(cmds + more, k) == Told(cmds, k)
  {
    if more == [] {
      assert cmds + more == cmds;
    } else {
      var n := |more| - 1;
      ToldOthers(cmds, more[..n], k);
      ToldOne(cmds + more[..n], more[n], k);
      assert cmds + more == (cmds + more[..n]) + [more[n]];
    }
  }

  lemma {:induction false} ToldListing(cmds: seq<Command>, id: int, seen: set<int>, listed: seq<int>)
    requires Told(cmds, id) == EMPTY_SLOTS
    ensures Told(cmds + ConnectCommands(id, seen, listed), id) == Connected(seen, listed)
  {
    if listed == [] {
      assert cmds + [] == cmds;
    } else {
      var n := |listed| - 1;
      var before := ConnectCommands(id, seen, listed[..n]);
      ToldListing(cmds, id, seen, listed[..n]);
      if listed[n] == EMPTY_CONVEYOR_ID {
        assert ConnectCommands(id, seen, listed) == before;
      } else {
        var cmd := Connect(id, listed[n], RoleTowards(seen, listed[n]), n % CONVEYOR_MAX_CONNECTIONS);
        ToldOne(cmds + before, cmd, id);
        assert cmds + ConnectCommands(id, seen, listed) == (cmds + before) + [cmd];
      }
    }
  }

  lemma {:induction false} CommandsForListing(id: int, seen: set<int>, listed: seq<int>)
    ensures forall i :: 0 <= i < |ConnectCommands(id, seen, listed)| ==>
      ConnectCommands(id, seen, listed)[i].Connect? && ConnectCommands(id, seen, listed)[i].conveyor == id
  {
    if listed != [] {
      CommandsForListing(id, seen, listed[..|listed| - 1]);
    }
  }

  /** The connect messages of a configuration tell every conveyor exactly the slots the table holds for it. */
  lemma {:induction false} ConveyorsAreToldTheTable(config: seq<Listing>, k: int)
    requires DistinctIds(config)
    ensures Told(ConfigureCommands(config), k) ==
      if k in Configured(config) then Configured(config)[k].slots else EMPTY_SLOTS
  {
    if config != [] {
      var n := |config| - 1;
      var init, e := config[..n], config[n];
      ConveyorsAreToldTheTable(init, k);
      ConfiguredKeys(init);
      var seen := Configured(init).Keys;
      if k == e.id {
        assert k !in Ids(init);
        ToldListing(ConfigureCommands(init), k, seen, e.listed);
      } else {
        CommandsForListing(e.id, seen, e.listed);
        ToldOthers(ConfigureCommands(init), ConnectCommands(e.id, seen, e.listed), k);
      }
    }
  }

  // ---- boxes ----

  /** A message that takes the conveyor's box away or gives it another. */
  predicate EndsBox(o: Output, k: int) {
    o.ToAnt? && (o.cmd.Disconnect? || o.cmd.ConnectBox?) && o.cmd.conveyor == k
  }

  /** Conveyor `k` was told of box `b` at location `l`, and of no other box nor a disconnect since. */
  ghost predicate BoxTold(out: seq<Output>, k: int, b: int, l: int) {
    exists i :: 0 <= i < |out| && out[i] == ToAnt(ConnectBox(k, b, l))
      && forall j :: i < j < |out| ==> !EndsBox(out[j], k)
  }

  /** Every box in use was announced to its conveyor, and occupies the slot that was announced. */
  ghost predicate Announced(c: Convs, out: seq<Output>) {
    forall k :: k in c ==>
      && c[k].id == k
      && (c[k].box.Initialized() ==>
            && BoxTold(out, k, c[k].box.id, c[k].box.location)
            && 0 <= c[k].box.location < |c[k].slots|
            && c[k].slots[c[k].box.location] == Slot(BOX_CONVEYOR_ID, SLAVE))
  }

  predicate EndsNoBox(out: seq<Output>, k: int) {
    forall i :: 0 <= i < |out| ==> !EndsBox(out[i], k)
  }

  lemma BoxStaysTold(out: seq<Output>, more: seq<Output>, k: int, b: int, l: int)
    requires BoxTold(out, k, b, l) && EndsNoBox(more, k)
    ensures BoxTold(out + more, k, b, l)
  {
    var i :| 0 <= i < |out| && out[i] == ToAnt(ConnectBox(k, b, l))
      && forall j :: i < j < |out| ==> !EndsBox(out[j], k);
    var all := out + more;
    assert all[i] == out[i];
    assert forall j :: |out| <= j < |all| ==> all[j] == more[j - |out|];
  }

  lemma BoxIsTold(out: seq<Output>, k: int, b: int, l: int, more: seq<Output>)
    requires EndsNoBox(more, k)
    ensures BoxTold(out + ([ToAnt(ConnectBox(k, b, l))] + more), k, b, l)
  {
    var all := out + ([ToAnt(ConnectBox(k, b, l))] + more);
    assert all[|out|] == ToAnt(ConnectBox(k, b, l));
    assert forall j :: |out| < j < |all| ==> all[j] == more[j - |out| - 1];
  }

  lemma PlanEndsNoBox(route: seq<int>, b: int, reply: Reply, k: int)
    ensures EndsNoBox(AntAll(Plan(route, b)) + [ToWeb(reply)], k)
  {
  }

  lemma AddAnnounced(c: Convs, out: seq<Output>, op: Op)
    requires Announced(c, out) && op.AddBox? && Allowed(c, op)
    ensures Announced(Next(c, op), out + Outputs(c, op))
  {
    var k, c', more := op.conveyor, Next(c, op), Outputs(c, op);
    if Accepts(c, op) {
      var first, reply := ToAnt(ConnectBox(k, op.box, op.location)), AddBoxReply(op.box, k, Accepted);
      var rest := AntAll(Plan(op.route, op.box)) + [ToWeb(reply)];
      assert more == [first] + rest;
      forall l | l in c'
        ensures EndsNoBox(rest, l) && (l != k ==> EndsNoBox(more, l))
      {
        PlanEndsNoBox(op.route, op.box, reply, l);
      }
      BoxIsTold(out, k, op.box, op.location, rest);
      forall l | l in c' && l != k && c'[l].box.Initialized()
        ensures BoxTold(out + more, l, c'[l].box.id, c'[l].box.location)
      {
        BoxStaysTold(out, more, l, c[l].box.id, c[l].box.location);
      }
    } else {
      OthersAnnounced(c, c, out, more);
    }
  }

  /** The same conveyor, with the same box if it still has one. */
  predicate SameBox(a: Conv, b: Conv) {
    && b.id == a.id && b.slots == a.slots
    && (b.box.Initialized() ==> a.box.Initialized() && b.box.id == a.box.id && b.box.location == a.box.location)
  }

  /** Steps that add no box and take none away. */
  lemma OthersAnnounced(c: Convs, c': Convs, out: seq<Output>, more: seq<Output>)
    requires Announced(c, out) && c'.Keys == c.Keys && forall k :: k in c ==> EndsNoBox(more, k)
    requires forall k :: k in c ==> SameBox(c[k], c'[k])
    ensures Announced(c', out + more)
  {
    forall k | k in c' && c'[k].box.Initialized()
      ensures BoxTold(out + more, k, c'[k].box.id, c'[k].box.location)
    {
      BoxStaysTold(out, more, k, c[k].box.id, c[k].box.location);
    }
  }

  lemma KeepsBoxes(c: Convs, op: Op)
    requires Allowed(c, op) && !op.SetState? && !op.AddBox?
    ensures Next(c, op).Keys == c.Keys
    ensures forall k :: k in c ==> SameBox(c[k], Next(c, op)[k]) && EndsNoBox(Outputs(c, op), k)
  {
    match op
    case GetBoxState(_) =>
    case SendPackage(_, _) =>
    case PackageReceived(_, _) =>
    case RemoveFrom(_, _) =>
    case RequestClear(_) =>
    case ClearCompleted(_, _) =>
  }

  lemma StepAnnounced(c: Convs, out: seq<Output>, op: Op)
    requires Announced(c, out) && Allowed(c, op)
    ensures Announced(Next(c, op), out + Outputs(c, op))
  {
    match op
    case SetState(config) => ConfiguredKeys(config);
    case AddBox(_, _, _, _) => AddAnnounced(c, out, op);
    case _ =>
      KeepsBoxes(c, op);
      OthersAnnounced(c, Next(c, op), out, Outputs(c, op));
  }

  // ---- commands for boxes ----

  /** The command at position `r` concerns a box that its conveyor was told of last. */
  ghost predicate ForToldBox(out: seq<Output>, r: nat)
    requires r < |out|
  {
    match out[r]
    case ToAnt(ClearBox(k, b)) => exists l :: BoxTold(out[..r], k, b, l)
    case ToAnt(RemovePackage(k, _, b)) => exists l :: BoxTold(out[..r], k, b, l)
    case ToAnt(AddPackage(b, _, _)) => exists k, l :: BoxTold(out[..r], k, b, l)
    case _ => true
  }

  ghost predicate AllForToldBoxes(out: seq<Output>) {
    forall r :: 0 <= r < |out| ==> ForToldBox(out, r)
  }

  predicate NamesBox(o: Output) {
    o.ToAnt? && (o.cmd.ClearBox? || o.cmd.RemovePackage? || o.cmd.AddPackage?)
  }

  lemma AddNamesNoBox(c: Convs, op: Op)
    requires op.AddBox? && Allowed(c, op)
    ensures forall i :: 0 <= i < |Outputs(c, op)| ==> !NamesBox(Outputs(c, op)[i])
  {
    var plan := AntAll(Plan(op.route, op.box));
    assert forall j :: 0 <= j < |plan| ==> !NamesBox(plan[j]);
  }

  /** Only the first message of an operation can be a command for a box. */
  lemma OnlyFirstNamesBox(c: Convs, op: Op, i: nat)
    requires Allowed(c, op) && 0 < i < |Outputs(c, op)|
    ensures !NamesBox(Outputs(c, op)[i])
  {
    match op
    case SetState(config) => DisconnectsComeFirst(c, config);
    case AddBox(_, _, _, _) => AddNamesNoBox(c, op);
    case GetBoxState(_) =>
    case SendPackage(_, _) =>
    case PackageReceived(_, _) =>
    case RemoveFrom(_, _) =>
    case RequestClear(_) =>
    case ClearCompleted(_, _) =>
  }

  lemma FirstIsForToldBox(c: Convs, out: seq<Output>, op: Op)
    requires Announced(c, out) && Allowed(c, op) && Outputs(c, op) != []
    ensures ForToldBox(out + Outputs(c, op), |out|)
  {
    var all := out + Outputs(c, op);
    assert all[|out|] == Outputs(c, op)[0] && all[..|out|] == out;
    if op.SetState? {
      DisconnectsComeFirst(c, op.config);
    }
  }

  lemma StepForToldBoxes(c: Convs, out: seq<Output>, op: Op)
    requires Announced(c, out) && AllForToldBoxes(out) && Allowed(c, op)
    ensures AllForToldBoxes(out + Outputs(c, op))
  {
    var more := Outputs(c, op);
    var all := out + more;
    forall r | 0 <= r < |all|
      ensures ForToldBox(all, r)
    {
      if r < |out| {
        assert ForToldBox(out, r) && all[r] == out[r] && all[..r] == out[..r];
      } else if r == |out| {
        FirstIsForToldBox(c, out, op);
      } else {
        OnlyFirstNamesBox(c, op, r - |out|);
        assert all[r] == more[r - |out|];
      }
    }
  }

  lemma {:induction false} RunForToldBoxes(c: Convs, out: seq<Output>, ops: seq<Op>)
    requires Announced(c, out) && AllForToldBoxes(out) && AllAllowed(c, ops)
    ensures Announced(Run(c, ops), out + RunOutputs(c, ops)) && AllForToldBoxes(out + RunOutputs(c, ops))
    decreases |ops|
  {
    if ops == [] {
      assert out + [] == out;
    } else {
      StepAnnounced(c, out, ops[0]);
      StepForToldBoxes(c, out, ops[0]);
      RunForToldBoxes(Next(c, ops[0]), out + Outputs(c, ops[0]), ops[1..]);
      Associate(out, Outputs(c, ops[0]), RunOutputs(Next(c, ops[0]), ops[1..]));
    }
  }

  /**
   Over every run from start-up: a clear or a removal goes to a conveyor that was
   told of that very box, and of no other box nor a disconnect since; a package
   is sent for a box that some conveyor was told of in that way. Every box in use
   is one that its conveyor was told of, at the location it occupies.
   */
  lemma CommandsGoToTheirBox(ops: seq<Op>)
    requires AllAllowed(map[], ops)
    ensures AllForToldBoxes(RunOutputs(map[], ops))
    ensures Announced(Run(map[], ops), RunOutputs(map[], ops))
  {
    RunForToldBoxes(map[], [], ops);
    assert [] + RunOutputs(map[], ops) == RunOutputs(map[], ops);
  }
}
