/** The routing messages, read by the conveyors as next-hop tables, deliver along shortest paths. */
module RoutingProofs {
  import opened CentralTypes
  import opened Conveyors
  import opened Graphs
  import opened Messages
  import opened Systems
  import opened SystemProofs

  // ---- the graph ----

  lemma BoxSlotIsNoHop(slots: seq<Slot>, location: int)
    requires 0 <= location < |slots| && slots[location].target == EMPTY_CONVEYOR_ID
    ensures Hops(slots[location := Slot(BOX_CONVEYOR_ID, SLAVE)]) == Hops(slots)
  {
    var slots' := slots[location := Slot(BOX_CONVEYOR_ID, SLAVE)];
    forall v | v in Hops(slots)
      ensures v in Hops(slots')
    {
      var i :| 0 <= i < |slots| && slots[i].target >= VALID_CONVEYOR_ID_MIN && slots[i].target == v;
      assert slots'[i] == slots[i];
    }
  }

  /** Only a reconfiguration changes the conveyor-to-conveyor graph. */
  lemma NetUnchanged(c: Convs, op: Op)
    requires Allowed(c, op) && !op.SetState?
    ensures Net(Next(c, op)) == Net(c)
  {
    var c' := Next(c, op);
    forall k | k in c
      ensures Hops(c'[k].slots) == Hops(c[k].slots)
    {
      if op.AddBox? && RefusalOf(c, op.conveyor, op.location) == Accepted && k == op.conveyor {
        BoxSlotIsNoHop(c[k].slots, op.location);
      }
    }
  }

  lemma {:induction false} RunNetUnchanged(c: Convs, ops: seq<Op>)
    requires AllAllowed(c, ops) && forall i :: 0 <= i < |ops| ==> !ops[i].SetState?
    ensures Net(Run(c, ops)) == Net(c)
    decreases |ops|
  {
    if ops != [] {
      NetUnchanged(c, ops[0]);
      RunNetUnchanged(Next(c, ops[0]), ops[1..]);
    }
  }

  // ---- next-hop tables ----

  predicate IsHop(o: Output, box: int, node: int) {
    o.ToAnt? && o.cmd.RoutingPlan? && o.cmd.box == box && o.cmd.conveyor == node
  }

  /** A conveyor forwards a box's packages to the last conveyor it was told. */
  function Lookup(out: seq<Output>, box: int, node: int): Option<int> {
    if out == [] then None
    else
      var n := |out| - 1;
      if IsHop(out[n], box, node) then Some(out[n].cmd.next) else Lookup(out[..n], box, node)
  }

  /** Where a package for the box is after some hops, starting from a conveyor. */
  function Follow(out: seq<Output>, box: int, node: int, hops: nat): int
    decreases hops
  {
    if hops == 0 then node
    else match Lookup(out, box, node)
      case None => node
      case Some(next) => Follow(out, box, next, hops - 1)
  }

  lemma {:induction false} LastHopWins(out: seq<Output>, box: int, node: int, i: nat)
    requires i < |out| && IsHop(out[i], box, node)
    requires forall j :: i < j < |out| ==> !IsHop(out[j], box, node)
    ensures Lookup(out, box, node) == Some(out[i].cmd.next)
  {
    var n := |out| - 1;
    if i < n {
      assert out[..n][i] == out[i];
      assert forall j :: i < j < n ==> out[..n][j] == out[j];
      LastHopWins(out[..n], box, node, i);
    }
  }

  /** The `i`th conveyor of the route forwards to its successor, the last one to itself. */
  predicate HoldsAt(out: seq<Output>, box: int, route: seq<int>, i: nat)
    requires i < |route|
  {
    Lookup(out, box, route[i]) == Some(if i + 1 < |route| then route[i + 1] else route[i])
  }

  /** The table holds, for the box, exactly the successors along the route. */
  ghost predicate Holds(out: seq<Output>, box: int, route: seq<int>) {
    forall i :: 0 <= i < |route| ==> HoldsAt(out, box, route, i)
  }

  predicate NoHopsFor(out: seq<Output>, box: int) {
    forall i :: 0 <= i < |out| ==> !(out[i].ToAnt? && out[i].cmd.RoutingPlan? && out[i].cmd.box == box)
  }

  /** The messages for a route form a function on its conveyors, whatever was sent before. */
  lemma PlanHolds(out: seq<Output>, route: seq<int>, box: int, later: seq<Output>)
    requires Simple(route) && NoHopsFor(later, box)
    ensures Holds(out + AntAll(Plan(route, box)) + later, box, route)
  {
    var plan := AntAll(Plan(route, box));
    var all := out + plan + later;
    forall i | 0 <= i < |route|
      ensures HoldsAt(all, box, route, i)
    {
      var at := |out| + i;
      assert all[at] == plan[i];
      forall j | at < j < |all|
        ensures !IsHop(all[j], box, route[i])
      {
        if j < |out| + |plan| {
          assert all[j] == plan[j - |out|];
        } else {
          assert all[j] == later[j - |out| - |plan|];
        }
      }
      LastHopWins(all, box, route[i], at);
    }
  }

  /** Following the table from any conveyor on the route walks along the route and stays at its end. */
  lemma {:induction false} FollowWalksRoute(out: seq<Output>, box: int, route: seq<int>, i: nat, hops: nat)
    requires Holds(out, box, route) && i < |route|
    ensures Follow(out, box, route[i], hops) == route[if i + hops < |route| then i + hops else |route| - 1]
    decreases hops
  {
    if hops > 0 {
      assert HoldsAt(out, box, route, i);
      FollowWalksRoute(out, box, route, if i + 1 < |route| then i + 1 else i, hops - 1);
    }
  }

  predicate AcceptsBox(c: Convs, op: Op, box: int) {
    Accepts(c, op) && op.box == box
  }

  /** No further box is accepted under this id: a refused request sends no route. */
  ghost predicate NoneAccepted(c: Convs, ops: seq<Op>, box: int)
    requires AllAllowed(c, ops)
    decreases |ops|
  {
    ops != [] ==> !AcceptsBox(c, ops[0], box) && NoneAccepted(Next(c, ops[0]), ops[1..], box)
  }

  lemma OutputsWithoutHops(c: Convs, op: Op, box: int)
    requires Allowed(c, op) && !AcceptsBox(c, op, box)
    ensures NoHopsFor(Outputs(c, op), box)
  {
    match op
    case SetState(config) => DisconnectsComeFirst(c, config);
    case AddBox(_, b, _, route) =>
      if b != box {
        PlanForOther(route, b, box);
      }
    case _ =>
  }

  lemma PlanForOther(route: seq<int>, b: int, box: int)
    requires b != box
    ensures NoHopsFor(AntAll(Plan(route, b)), box)
  {
  }

  lemma {:induction false} RunWithoutHops(c: Convs, ops: seq<Op>, box: int)
    requires AllAllowed(c, ops) && NoneAccepted(c, ops, box)
    ensures NoHopsFor(RunOutputs(c, ops), box)
    decreases |ops|
  {
    if ops != [] {
      OutputsWithoutHops(c, ops[0], box);
      RunWithoutHops(Next(c, ops[0]), ops[1..], box);
    }
  }

  /** Every conveyor on the route hands the package to one that is a hop nearer to the target. */
  ghost predicate Approaches(g: Graph, route: seq<int>, target: int) {
    forall i :: 0 <= i < |route| ==> IsShortest(g, route[i..], route[i], target)
  }

  lemma RouteStaysShortest(c: Convs, add: Op, later: seq<Op>)
    requires add.AddBox? && Allowed(c, add) && AllAllowed(Next(c, add), later)
    requires RefusalOf(c, add.conveyor, add.location) == Accepted
    requires forall i :: 0 <= i < |later| ==> !later[i].SetState?
    ensures var g := Net(Run(Next(c, add), later));
      IsShortest(g, add.route, INPUT_CONVEYOR_ID, add.conveyor) && Approaches(g, add.route, add.conveyor)
    ensures Simple(add.route)
  {
    var route := add.route;
    NetUnchanged(c, add);
    RunNetUnchanged(Next(c, add), later);
    ShortestIsSimple(Net(c), route, INPUT_CONVEYOR_ID, add.conveyor);
    forall i | 0 <= i < |route|
      ensures IsShortest(Net(c), route[i..], route[i], add.conveyor)
    {
      SuffixIsShortest(Net(c), route, INPUT_CONVEYOR_ID, add.conveyor, i);
    }
  }

  lemma TableHoldsRoute(c: Convs, earlier: seq<Output>, add: Op, later: seq<Op>)
    requires add.AddBox? && Allowed(c, add) && AllAllowed(Next(c, add), later)
    requires RefusalOf(c, add.conveyor, add.location) == Accepted && Simple(add.route)
    requires NoneAccepted(Next(c, add), later, add.box)
    ensures Holds(earlier + Outputs(c, add) + RunOutputs(Next(c, add), later), add.box, add.route)
  {
    var first := ToAnt(ConnectBox(add.conveyor, add.box, add.location));
    var reply := ToWeb(AddBoxReply(add.box, add.conveyor, Accepted));
    var plan, after := AntAll(Plan(add.route, add.box)), RunOutputs(Next(c, add), later);
    RunWithoutHops(Next(c, add), later, add.box);
    PlanHolds(earlier + [first], add.route, add.box, [reply] + after);
    Regroup(earlier, first, plan, reply, after);
  }

  lemma Regroup(a: seq<Output>, b: Output, c: seq<Output>, d: Output, e: seq<Output>)
    ensures a + ([b] + c + [d]) + e == (a + [b]) + c + ([d] + e)
  {
  }

  /**
   End to end. After a box was added, and until the next reconfiguration or the
   next box accepted under the same id, the messages sent so far move a package for the
   box from the input conveyor along a shortest path of the current graph, one
   hop nearer at each step, and keep it at the box's conveyor.
   */
  lemma PackagesReachTheirBox(c: Convs, earlier: seq<Output>, add: Op, later: seq<Op>, hops: nat)
    requires add.AddBox? && Allowed(c, add) && AllAllowed(Next(c, add), later)
    requires RefusalOf(c, add.conveyor, add.location) == Accepted
    requires forall i :: 0 <= i < |later| ==> !later[i].SetState?
    requires NoneAccepted(Next(c, add), later, add.box)
    ensures var out := earlier + Outputs(c, add) + RunOutputs(Next(c, add), later);
      var g := Net(Run(Next(c, add), later));
      var last := |add.route| - 1;
      && IsShortest(g, add.route, INPUT_CONVEYOR_ID, add.conveyor)
      && Approaches(g, add.route, add.conveyor)
      && Follow(out, add.box, INPUT_CONVEYOR_ID, hops) == add.route[if hops < last then hops else last]
      && (Follow(out, add.box, INPUT_CONVEYOR_ID, hops) == add.conveyor <==> hops >= last)
  {
    RouteStaysShortest(c, add, later);
    TableHoldsRoute(c, earlier, add, later);
    var out := earlier + Outputs(c, add) + RunOutputs(Next(c, add), later);
    FollowWalksRoute(out, add.box, add.route, 0, hops);
  }
}
