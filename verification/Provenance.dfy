/** Where removed packages come from: exactly when a removal can name a box that the package never went to. */
module Provenance {
  import opened CentralTypes
  import opened Boxes
  import opened Conveyors
  import opened Messages
  import opened Sequences
  import opened Systems
  import opened SystemProofs

  // ---- what the outputs say ----

  /** Before position `n`, package `p` was sent towards box `b`. */
  ghost predicate SentTo(out: seq<Output>, n: nat, b: int, p: int) {
    exists i, t :: 0 <= i < n && i < |out| && out[i] == ToAnt(AddPackage(b, p, t))
  }

  /** Before position `n`, package `p` was reported as arrived in box `b`, after having been sent there. */
  ghost predicate ArrivedIn(out: seq<Output>, n: nat, b: int, p: int) {
    exists j: nat :: j < n && j < |out| && out[j] == ToWeb(PackageReceivedReply(p, b)) && SentTo(out, j, b, p)
  }

  /** Under the id, everything in transit to the box was sent, and everything stored has arrived. */
  ghost predicate Accounted(b: Box, out: seq<Output>, id: int) {
    && (forall p :: p in b.transit ==> SentTo(out, |out|, id, p))
    && (forall p :: p in b.stored ==> ArrivedIn(out, |out|, id, p))
  }

  /** Every package removed from a box had arrived in it. */
  ghost predicate RemovalsArrived(out: seq<Output>) {
    forall r, v, p, b :: 0 <= r < |out| && out[r] == ToAnt(RemovePackage(v, p, b)) ==> ArrivedIn(out, r, b, p)
  }

  ghost predicate Traced(c: Convs, out: seq<Output>) {
    && (forall k :: k in c ==> Accounted(c[k].box, out, c[k].box.id))
    && RemovalsArrived(out)
  }

  // ---- more output ----

  lemma LaterKeepsSent(out: seq<Output>, more: seq<Output>, n: nat, m: nat, b: int, p: int)
    requires SentTo(out, n, b, p) && n <= m
    ensures SentTo(out + more, m, b, p)
  {
    var i, t :| 0 <= i < n && i < |out| && out[i] == ToAnt(AddPackage(b, p, t));
    assert (out + more)[i] == out[i];
  }

  lemma LaterKeepsArrived(out: seq<Output>, more: seq<Output>, n: nat, m: nat, b: int, p: int)
    requires ArrivedIn(out, n, b, p) && n <= m
    ensures ArrivedIn(out + more, m, b, p)
  {
    var j: nat :| j < n && j < |out| && out[j] == ToWeb(PackageReceivedReply(p, b)) && SentTo(out, j, b, p);
    assert (out + more)[j] == out[j];
    LaterKeepsSent(out, more, j, j, b, p);
  }

  predicate NoSends(out: seq<Output>) {
    forall i :: 0 <= i < |out| ==> !(out[i].ToAnt? && out[i].cmd.AddPackage?)
  }

  predicate NoArrivals(out: seq<Output>) {
    forall i :: 0 <= i < |out| ==> !(out[i].ToWeb? && out[i].reply.PackageReceivedReply?)
  }

  predicate NoRemovals(out: seq<Output>) {
    forall i :: 0 <= i < |out| ==> !(out[i].ToAnt? && out[i].cmd.RemovePackage?)
  }

  /** Output that sends nothing leaves what was sent before it. */
  lemma SentBefore(out: seq<Output>, more: seq<Output>, n: nat, b: int, p: int)
    requires NoSends(more)
    ensures SentTo(out + more, n, b, p) ==> SentTo(out, |out|, b, p)
    ensures SentTo(out + more, n, b, p) && n <= |out| ==> SentTo(out, n, b, p)
  {
    var all := out + more;
    assert forall i :: |out| <= i < |all| ==> all[i] == more[i - |out|];
    if SentTo(all, n, b, p) {
      var i, t :| 0 <= i < n && i < |all| && all[i] == ToAnt(AddPackage(b, p, t));
      assert out[i] == all[i];
    }
  }

  lemma ArrivedBefore(out: seq<Output>, more: seq<Output>, n: nat, b: int, p: int)
    requires NoSends(more) && NoArrivals(more)
    ensures ArrivedIn(out + more, n, b, p) ==> ArrivedIn(out, |out|, b, p)
  {
    var all := out + more;
    assert forall i :: |out| <= i < |all| ==> all[i] == more[i - |out|];
    if ArrivedIn(all, n, b, p) {
      var j: nat :| j < n && j < |all| && all[j] == ToWeb(PackageReceivedReply(p, b)) && SentTo(all, j, b, p);
      assert out[j] == all[j];
      SentBefore(out, more, j, b, p);
    }
  }

  lemma ArrivedWasSent(out: seq<Output>, n: nat, b: int, p: int)
    ensures ArrivedIn(out, n, b, p) ==> SentTo(out, n, b, p)
  {
  }

  /** A box that only loses packages stays accounted for. */
  lemma GrowAccounted(b: Box, b': Box, out: seq<Output>, more: seq<Output>, id: int)
    requires Accounted(b, out, id) && b'.transit <= b.transit && b'.stored <= b.stored
    ensures Accounted(b', out + more, id)
  {
    var out' := out + more;
    forall p | p in b'.transit
      ensures SentTo(out', |out'|, id, p)
    {
      LaterKeepsSent(out, more, |out|, |out'|, id, p);
    }
    forall p | p in b'.stored
      ensures ArrivedIn(out', |out'|, id, p)
    {
      LaterKeepsArrived(out, more, |out|, |out'|, id, p);
    }
  }

  /** ... and output that sends and reports nothing accounts for no box that was not accounted for. */
  lemma AccountedBefore(b: Box, out: seq<Output>, more: seq<Output>, id: int)
    requires NoSends(more) && NoArrivals(more) && Accounted(b, out + more, id)
    ensures Accounted(b, out, id)
  {
    var out' := out + more;
    forall p | p in b.transit
      ensures SentTo(out, |out|, id, p)
    {
      SentBefore(out, more, |out'|, id, p);
    }
    forall p | p in b.stored
      ensures ArrivedIn(out, |out|, id, p)
    {
      ArrivedBefore(out, more, |out'|, id, p);
    }
  }

  lemma GrowRemovals(out: seq<Output>, more: seq<Output>)
    requires RemovalsArrived(out) && NoRemovals(more)
    ensures RemovalsArrived(out + more)
  {
    var out' := out + more;
    assert forall i :: |out| <= i < |out'| ==> out'[i] == more[i - |out|];
    forall r, v, p, b | 0 <= r < |out'| && out'[r] == ToAnt(RemovePackage(v, p, b))
      ensures ArrivedIn(out', r, b, p)
    {
      assert out[r] == out'[r];
      LaterKeepsArrived(out, more, r, r, b, p);
    }
  }

  // ---- the steps that keep their packages apart ----

  /** More output that removes nothing, for boxes that only lose packages. */
  lemma GrowTraced(c: Convs, c': Convs, out: seq<Output>, more: seq<Output>)
    requires Traced(c, out) && NoRemovals(more)
    requires forall k :: k in c' && c'[k].box.Contents() != {} ==>
      && k in c && c'[k].box.id == c[k].box.id
      && c'[k].box.transit <= c[k].box.transit && c'[k].box.stored <= c[k].box.stored
    ensures Traced(c', out + more)
  {
    GrowRemovals(out, more);
    forall k | k in c'
      ensures Accounted(c'[k].box, out + more, c'[k].box.id)
    {
      var b := c'[k].box;
      if b.Contents() == {} {
        assert forall p :: p in b.transit || p in b.stored ==> p in b.Contents();
      } else {
        GrowAccounted(c[k].box, b, out, more, b.id);
      }
    }
  }

  lemma SendTraced(c: Convs, out: seq<Output>, pkg: int, t: PackageType)
    requires Traced(c, out)
    ensures Traced(Next(c, SendPackage(pkg, t)), out + Outputs(c, SendPackage(pkg, t)))
  {
    var op := SendPackage(pkg, t);
    var more := Outputs(c, op);
    GrowTraced(c, c, out, more);
    if Taker(c, t).Some? {
      var b := c[Taker(c, t).value].box.id;
      assert (out + more)[|out|] == ToAnt(AddPackage(b, pkg, t));
      assert SentTo(out + more, |out + more|, b, pkg);
    }
  }

  lemma ReceiveTraced(c: Convs, out: seq<Output>, pkg: int, box: int)
    requires Traced(c, out)
    ensures Traced(Next(c, PackageReceived(pkg, box)), out + Outputs(c, PackageReceived(pkg, box)))
  {
    var op := PackageReceived(pkg, box);
    var more := Outputs(c, op);
    GrowTraced(c, c, out, more);
    if BoxAvailable(c, box) {
      var b := c[BoxKey(c, box).value].box;
      assert b.id == box;
      if pkg in b.transit {
        assert (out + more)[|out|] == ToWeb(PackageReceivedReply(pkg, box));
        LaterKeepsSent(out, more, |out|, |out|, box, pkg);
        assert ArrivedIn(out + more, |out + more|, box, pkg);
      }
    }
  }

  lemma RemovalIsTraced(c: Convs, out: seq<Output>, v: int, box: int, pkg: int)
    requires Traced(c, out) && ArrivedIn(out, |out|, box, pkg)
    ensures Traced(c, out + [ToAnt(RemovePackage(v, pkg, box))])
  {
    var more := [ToAnt(RemovePackage(v, pkg, box))];
    var out' := out + more;
    forall k | k in c
      ensures Accounted(c[k].box, out', c[k].box.id)
    {
      GrowAccounted(c[k].box, c[k].box, out, more, c[k].box.id);
    }
    forall r, w, p, b | 0 <= r < |out'| && out'[r] == ToAnt(RemovePackage(w, p, b))
      ensures ArrivedIn(out', r, b, p)
    {
      LaterKeepsArrived(out, more, r, r, b, p);
    }
  }

  lemma RemoveTraced(c: Convs, out: seq<Output>, box: int, pkg: int)
    requires Traced(c, out)
    ensures Traced(Next(c, RemoveFrom(box, pkg)), out + Outputs(c, RemoveFrom(box, pkg)))
  {
    var op := RemoveFrom(box, pkg);
    var more := Outputs(c, op);
    var c' := Next(c, op);
    if RemoveResultOf(c, box, pkg) != Removed {
      GrowTraced(c, c, out, more);
    } else {
      var k := BoxKey(c, box).value;
      var cmd := ToAnt(RemovePackage(c[k].id, pkg, box));
      var mid := out + [cmd];
      assert Traced(c, mid) by {
        assert c[k].box.id == box && ArrivedIn(out, |out|, box, pkg);
        RemovalIsTraced(c, out, c[k].id, box, pkg);
      }
      GrowTraced(c, c', mid, more[1..]);
      assert out + more == mid + more[1..];
    }
  }

  lemma ResetTraced(c: Convs, out: seq<Output>, config: seq<Listing>)
    requires Traced(c, out)
    ensures Traced(Next(c, SetState(config)), out + Outputs(c, SetState(config)))
  {
    ConfiguredKeys(config);
    DisconnectsComeFirst(c, config);
    GrowTraced(c, Configured(config), out, Outputs(c, SetState(config)));
  }

  // ---- the step that does not ----

  /** A new box inherits packages that never went to its id. */
  ghost predicate Misattributes(c: Convs, out: seq<Output>, op: Op) {
    Accepts(c, op) && !Accounted(c[op.conveyor].box, out, op.box)
  }

  lemma MisattributingInherits(c: Convs, out: seq<Output>, op: Op)
    requires Misattributes(c, out, op)
    ensures Inherits(c, op)
  {
    var b := c[op.conveyor].box;
    assert forall p :: p in b.transit || p in b.stored ==> p in b.Contents();
  }

  lemma AddOutputsQuiet(c: Convs, op: Op)
    requires op.AddBox? && Allowed(c, op)
    ensures NoSends(Outputs(c, op)) && NoArrivals(Outputs(c, op)) && NoRemovals(Outputs(c, op))
  {
    assert AllQuiet(AntAll(Plan(op.route, op.box)));
    assert AllQuiet(Outputs(c, op));
  }

  predicate AllQuiet(out: seq<Output>) {
    forall i :: 0 <= i < |out| ==> Quiet(out[i])
  }

  /** What is sent when a box is added. */
  predicate Quiet(o: Output) {
    match o
    case ToAnt(cmd) => cmd.ConnectBox? || cmd.RoutingPlan?
    case ToWeb(reply) => reply.AddBoxReply?
  }

  lemma AddTracedIff(c: Convs, out: seq<Output>, op: Op)
    requires op.AddBox? && Traced(c, out) && Allowed(c, op)
    ensures Traced(Next(c, op), out + Outputs(c, op)) <==> !Misattributes(c, out, op)
  {
    var more, c' := Outputs(c, op), Next(c, op);
    AddOutputsQuiet(c, op);
    if !Accepts(c, op) {
      GrowTraced(c, c, out, more);
    } else {
      var k, b := op.conveyor, c[op.conveyor].box;
      assert c'[k].box.id == op.box && c'[k].box.transit == b.transit && c'[k].box.stored == b.stored;
      if Misattributes(c, out, op) {
        if Accounted(c'[k].box, out + more, op.box) {
          AccountedBefore(c'[k].box, out, more, op.box);
        }
      } else {
        GrowRemovals(out, more);
        forall l | l in c'
          ensures Accounted(c'[l].box, out + more, c'[l].box.id)
        {
          GrowAccounted(c[l].box, c'[l].box, out, more, c'[l].box.id);
        }
      }
    }
  }

  /** Only a new box that inherits packages sent elsewhere loses track of them, and it always does. */
  lemma StepTracedIff(c: Convs, out: seq<Output>, op: Op)
    requires Traced(c, out) && Allowed(c, op)
    ensures Traced(Next(c, op), out + Outputs(c, op)) <==> !Misattributes(c, out, op)
  {
    match op
    case SetState(config) => ResetTraced(c, out, config);
    case SendPackage(pkg, t) => SendTraced(c, out, pkg, t);
    case PackageReceived(pkg, box) => ReceiveTraced(c, out, pkg, box);
    case RemoveFrom(box, pkg) => RemoveTraced(c, out, box, pkg);
    case AddBox(_, _, _, _) => AddTracedIff(c, out, op);
    case _ => GrowTraced(c, Next(c, op), out, Outputs(c, op));
  }

  // ---- whole runs ----

  ghost predicate NoneMisattributed(c: Convs, out: seq<Output>, ops: seq<Op>)
    requires AllAllowed(c, ops)
    decreases |ops|
  {
    ops != [] ==>
      && !Misattributes(c, out, ops[0])
      && NoneMisattributed(Next(c, ops[0]), out + Outputs(c, ops[0]), ops[1..])
  }

  lemma {:induction false} RunTraced(c: Convs, out: seq<Output>, ops: seq<Op>)
    requires Traced(c, out) && AllAllowed(c, ops) && NoneMisattributed(c, out, ops)
    ensures Traced(Run(c, ops), out + RunOutputs(c, ops))
    decreases |ops|
  {
    if ops == [] {
      assert out + [] == out;
    } else {
      StepTracedIff(c, out, ops[0]);
      RunTraced(Next(c, ops[0]), out + Outputs(c, ops[0]), ops[1..]);
      Associate(out, Outputs(c, ops[0]), RunOutputs(Next(c, ops[0]), ops[1..]));
    }
  }

  /**
   Since start-up, a package is only ever removed after it was sent to the box
   and reported as arrived there, as long as no new box inherits a package that
   went to another id.
   */
  lemma RemovedPackagesHadArrived(ops: seq<Op>)
    requires AllAllowed(map[], ops) && NoneMisattributed(map[], [], ops)
    ensures RemovalsArrived(RunOutputs(map[], ops))
  {
    RunTraced(map[], [], ops);
    assert [] + RunOutputs(map[], ops) == RunOutputs(map[], ops);
  }

  ghost predicate NoneInherited(c: Convs, ops: seq<Op>)
    requires AllAllowed(c, ops)
    decreases |ops|
  {
    ops != [] ==> !Inherits(c, ops[0]) && NoneInherited(Next(c, ops[0]), ops[1..])
  }

  /** That is so if no new box inherits anything ... */
  lemma {:induction false} NoneInheritedSuffices(c: Convs, out: seq<Output>, ops: seq<Op>)
    requires AllAllowed(c, ops) && NoneInherited(c, ops)
    ensures NoneMisattributed(c, out, ops)
    decreases |ops|
  {
    if ops != [] {
      if Misattributes(c, out, ops[0]) {
        MisattributingInherits(c, out, ops[0]);
      }
      NoneInheritedSuffices(Next(c, ops[0]), out + Outputs(c, ops[0]), ops[1..]);
    }
  }

  /** ... which is so if no package of type INVALID is accepted. */
  lemma {:induction false} NoneOrphanedSuffices(c: Convs, ops: seq<Op>)
    requires Sealed(c) && AllAllowed(c, ops) && NoneOrphaned(c, ops)
    ensures NoneInherited(c, ops)
    decreases |ops|
  {
    if ops != [] {
      if Accepts(c, ops[0]) {
        assert c[ops[0].conveyor].box.Contents() == {};
      }
      NextKeepsSealedIff(c, ops[0]);
      NoneOrphanedSuffices(Next(c, ops[0]), ops[1..]);
    }
  }

  // ---- the condition is exact ----

  /** A continuation in which nothing else is misattributed removes a package from a box where it had not arrived. */
  ghost predicate Exposes(c: Convs, out: seq<Output>, more: seq<Op>) {
    AllAllowed(c, more) && NoneMisattributed(c, out, more) && !RemovalsArrived(out + RunOutputs(c, more))
  }

  /** A stored package is removed on request from the box that lookups find under its id. */
  lemma RemovalEmitted(c: Convs, box: int, p: int)
    requires BoxAvailable(c, box) && p in c[BoxKey(c, box).value].box.stored
    ensures AllAllowed(c, [RemoveFrom(box, p)])
    ensures RunOutputs(c, [RemoveFrom(box, p)]) ==
      [ToAnt(RemovePackage(c[BoxKey(c, box).value].id, p, box)), ToWeb(RemovePackageReply(p, box, Removed))]
  {
    var remove := RemoveFrom(box, p);
    assert RunOutputs(c, [remove]) == Outputs(c, remove) + RunOutputs(Next(c, remove), []);
  }

  lemma ArrivalEmitted(c: Convs, box: int, p: int)
    requires BoxAvailable(c, box) && p in c[BoxKey(c, box).value].box.transit
    ensures var arrive := PackageReceived(p, box);
      && Outputs(c, arrive) == [ToWeb(PackageReceivedReply(p, box))]
      && BoxKey(Next(c, arrive), box) == BoxKey(c, box)
      && p in Next(c, arrive)[BoxKey(c, box).value].box.stored
  {
    assert Holders(Next(c, PackageReceived(p, box)), box) == Holders(c, box);
  }

  lemma StoredIsExposed(c: Convs, out: seq<Output>, box: int, p: int)
    requires BoxAvailable(c, box) && p in c[BoxKey(c, box).value].box.stored
    requires !ArrivedIn(out, |out|, box, p)
    ensures Exposes(c, out, [RemoveFrom(box, p)])
  {
    RemovalEmitted(c, box, p);
    var more := RunOutputs(c, [RemoveFrom(box, p)]);
    var all := out + more;
    assert all[|out|] == more[0];
    ArrivedBefore(out, more, |out|, box, p);
  }

  lemma TransitIsExposed(c: Convs, out: seq<Output>, box: int, p: int)
    requires BoxAvailable(c, box) && p in c[BoxKey(c, box).value].box.transit
    requires !SentTo(out, |out|, box, p)
    ensures Exposes(c, out, [PackageReceived(p, box)] + [RemoveFrom(box, p)])
  {
    var arrive, rest := PackageReceived(p, box), [RemoveFrom(box, p)];
    var c' := Next(c, arrive);
    ArrivalEmitted(c, box, p);
    var out' := out + Outputs(c, arrive);
    ArrivedWasSent(out', |out'|, box, p);
    SentBefore(out, Outputs(c, arrive), |out'|, box, p);
    StoredIsExposed(c', out', box, p);
    RunTakes(c, arrive, rest);
    assert ([arrive] + rest)[1..] == rest;
    Associate(out, Outputs(c, arrive), RunOutputs(c', rest));
  }

  /** A new box that lookups find exposes what it wrongly inherited. */
  lemma MisattributionIsExposed(c: Convs, out: seq<Output>, op: Op)
    requires Allowed(c, op) && op.AddBox? && op.box != INVALID_BOX_ID && Misattributes(c, out, op)
    requires BoxKey(Next(c, op), op.box) == Some(op.conveyor)
    ensures exists more :: Exposes(Next(c, op), out + Outputs(c, op), more)
  {
    var c', out' := Next(c, op), out + Outputs(c, op);
    var b := c'[op.conveyor].box;
    assert !Accounted(b, out', op.box) by {
      AddOutputsQuiet(c, op);
      if Accounted(b, out', op.box) {
        AccountedBefore(b, out, Outputs(c, op), op.box);
      }
    }
    if p :| p in b.stored && !ArrivedIn(out', |out'|, op.box, p) {
      StoredIsExposed(c', out', op.box, p);
    } else {
      var p :| p in b.transit && !SentTo(out', |out'|, op.box, p);
      TransitIsExposed(c', out', op.box, p);
    }
  }

  lemma NothingIsExposed(c: Convs, out: seq<Output>)
    requires Traced(c, out)
    ensures !exists more :: Exposes(c, out, more)
  {
    forall more | AllAllowed(c, more) && NoneMisattributed(c, out, more)
      ensures RemovalsArrived(out + RunOutputs(c, more))
    {
      RunTraced(c, out, more);
    }
  }

  /**
   The condition is exact. Up to now every package is accounted for; a box is
   added that lookups will find under its id. Then some continuation, in which
   no other box inherits packages that went elsewhere, removes a package from a
   box where it had not arrived, if and only if the new box inherits one that
   never went to its id.
   */
  lemma MisattributionIsExact(c: Convs, out: seq<Output>, op: Op)
    requires Traced(c, out) && op.AddBox? && Allowed(c, op) && op.box != INVALID_BOX_ID
    requires Accepts(c, op) ==> BoxKey(Next(c, op), op.box) == Some(op.conveyor)
    ensures Misattributes(c, out, op) <==> exists more :: Exposes(Next(c, op), out + Outputs(c, op), more)
  {
    if Misattributes(c, out, op) {
      MisattributionIsExposed(c, out, op);
    } else {
      StepTracedIff(c, out, op);
      NothingIsExposed(Next(c, op), out + Outputs(c, op));
    }
  }
}
