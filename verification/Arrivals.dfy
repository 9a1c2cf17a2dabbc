/** Arrival reports: exactly when a repeated one changes nothing, and when a delivered package can be taken out. */
module Arrivals {
  import opened CentralTypes
  import opened Conveyors
  import opened Sets
  import opened Systems
  import opened SystemProofs

  // ---- repeated reports ----

  /** The box that a report names, if any, does not have the package in transit. */
  predicate NotInTransit(c: Convs, box: int, pkg: int) {
    BoxAvailable(c, box) ==> pkg !in c[BoxKey(c, box).value].box.transit
  }

  lemma ArrivalEndsTransit(c: Convs, box: int, pkg: int)
    ensures NotInTransit(Next(c, PackageReceived(pkg, box)), box, pkg)
  {
    assert Holders(Next(c, PackageReceived(pkg, box)), box) == Holders(c, box);
  }

  /** An arrival report changes nothing exactly when the package is not in transit to the box it names. */
  lemma ArrivalIsIdleIff(c: Convs, box: int, pkg: int)
    ensures Next(c, PackageReceived(pkg, box)) == c <==> NotInTransit(c, box, pkg)
  {
    if !NotInTransit(c, box, pkg) {
      var k := BoxKey(c, box).value;
      assert pkg !in Next(c, PackageReceived(pkg, box))[k].box.transit;
    }
  }

  /**
   The operations that put the package in transit to the box a report would
   name: it is sent there again; a lower-numbered conveyor gets a box of the same
   id that inherits it; or the box is lost to a package of type INVALID, and the
   next one of the same id has it in transit.
   */
  predicate Reopens(c: Convs, op: Op, box: int, pkg: int) {
    box != INVALID_BOX_ID &&
    match op
    case SendPackage(p, t) =>
      && Taker(c, t).Some? && BoxKey(c, box) == Taker(c, t)
      && if t == INVALID then TransitBehind(c, box, pkg) else p == pkg
    case AddBox(k, b, _, _) =>
      && Accepts(c, op) && b == box && pkg in c[k].box.transit
      && (BoxKey(c, box).Some? ==> k < BoxKey(c, box).value)
    case _ => false
  }

  /** The second conveyor with a box of this id has the package in transit. */
  predicate TransitBehind(c: Convs, box: int, pkg: int) {
    BoxKey(c, box).Some? &&
    var rest := Holders(c, box) - {BoxKey(c, box).value};
    rest != {} && pkg in c[Least(rest)].box.transit
  }

  lemma LeastWithout(s: set<int>, k: int)
    requires s != {} && Least(s) != k
    ensures s - {k} != {} && Least(s - {k}) == Least(s)
  {
    assert Least(s) in s - {k};
  }

  lemma LeastWith(s: set<int>, k: int)
    ensures Least(s + {k}) == if s == {} || k < Least(s) then k else Least(s)
  {
    if s == {} {
      assert s + {k} == {k};
    } else {
      assert Least(s) in s + {k} && k in s + {k};
    }
  }

  lemma AddReopensIff(c: Convs, op: Op, box: int, pkg: int)
    requires op.AddBox? && Allowed(c, op) && NotInTransit(c, box, pkg)
    ensures NotInTransit(Next(c, op), box, pkg) <==> !Reopens(c, op, box, pkg)
  {
    var k, c' := op.conveyor, Next(c, op);
    if Accepts(c, op) {
      if op.box == box {
        assert Holders(c', box) == Holders(c, box) + {k};
        LeastWith(Holders(c, box), k);
      } else {
        assert Holders(c', box) == Holders(c, box);
      }
    }
  }

  lemma SendReopensIff(c: Convs, p: int, t: PackageType, box: int, pkg: int)
    requires NotInTransit(c, box, pkg)
    ensures NotInTransit(Next(c, SendPackage(p, t)), box, pkg) <==> !Reopens(c, SendPackage(p, t), box, pkg)
  {
    var c' := Next(c, SendPackage(p, t));
    if Taker(c, t).Some? {
      var k := Taker(c, t).value;
      if t == INVALID {
        assert Holders(c', box) == Holders(c, box) - {k};
        if Holders(c, box) != {} && Least(Holders(c, box)) != k {
          LeastWithout(Holders(c, box), k);
        }
      } else {
        assert Holders(c', box) == Holders(c, box);
      }
    }
  }

  /** Exactly these operations make a report of the package's arrival count again. */
  lemma StaysOutOfTransitIff(c: Convs, op: Op, box: int, pkg: int)
    requires Allowed(c, op) && NotInTransit(c, box, pkg)
    ensures NotInTransit(Next(c, op), box, pkg) <==> !Reopens(c, op, box, pkg)
  {
    match op
    case SetState(config) => ConfiguredKeys(config);
    case AddBox(_, _, _, _) => AddReopensIff(c, op, box, pkg);
    case SendPackage(p, t) => SendReopensIff(c, p, t, box, pkg);
    case _ => assert Holders(Next(c, op), box) == Holders(c, box);
  }

  /** These operations accept the package again, or one of type INVALID, or let a box inherit packages. */
  lemma ReopeningMeans(c: Convs, op: Op, box: int, pkg: int)
    requires Reopens(c, op, box, pkg)
    ensures Requests(c, op, pkg) || Orphans(c, op) || Inherits(c, op)
  {
    if op.AddBox? {
      assert pkg in c[op.conveyor].box.Contents();
    }
  }

  predicate Requests(c: Convs, op: Op, pkg: int) {
    op.SendPackage? && op.pkg == pkg && Taker(c, op.ptype).Some?
  }

  ghost predicate NeverReopened(c: Convs, ops: seq<Op>, box: int, pkg: int)
    requires AllAllowed(c, ops)
    decreases |ops|
  {
    ops != [] ==> !Reopens(c, ops[0], box, pkg) && NeverReopened(Next(c, ops[0]), ops[1..], box, pkg)
  }

  ghost predicate NeverRequested(c: Convs, ops: seq<Op>, pkg: int)
    requires AllAllowed(c, ops)
    decreases |ops|
  {
    ops != [] ==> !Requests(c, ops[0], pkg) && NeverRequested(Next(c, ops[0]), ops[1..], pkg)
  }

  /** So none of them happens if neither the package nor one of type INVALID is accepted. */
  lemma {:induction false} NeverRequestedSuffices(c: Convs, ops: seq<Op>, box: int, pkg: int)
    requires Sealed(c) && AllAllowed(c, ops) && NoneOrphaned(c, ops) && NeverRequested(c, ops, pkg)
    ensures NeverReopened(c, ops, box, pkg)
    decreases |ops|
  {
    if ops != [] {
      if Reopens(c, ops[0], box, pkg) {
        ReopeningMeans(c, ops[0], box, pkg);
      }
      NextKeepsSealedIff(c, ops[0]);
      NeverRequestedSuffices(Next(c, ops[0]), ops[1..], box, pkg);
    }
  }

  lemma {:induction false} RunStaysOutOfTransit(c: Convs, ops: seq<Op>, box: int, pkg: int)
    requires AllAllowed(c, ops) && NotInTransit(c, box, pkg) && NeverReopened(c, ops, box, pkg)
    ensures NotInTransit(Run(c, ops), box, pkg)
    decreases |ops|
  {
    if ops != [] {
      StaysOutOfTransitIff(c, ops[0], box, pkg);
      RunStaysOutOfTransit(Next(c, ops[0]), ops[1..], box, pkg);
    }
  }

  /**
   After a package's arrival was reported, reporting it again at any later point
   before it is in transit to the box anew leaves every box in the same final
   state.
   */
  lemma DuplicateArrivalHarmless(c: Convs, before: seq<Op>, after: seq<Op>, box: int, pkg: int)
    requires AllAllowed(Next(c, PackageReceived(pkg, box)), before)
    requires AllAllowed(Run(Next(c, PackageReceived(pkg, box)), before), after)
    requires NeverReopened(Next(c, PackageReceived(pkg, box)), before, box, pkg)
    ensures var c' := Next(c, PackageReceived(pkg, box));
      && AllAllowed(c', before + after)
      && AllAllowed(c', before + [PackageReceived(pkg, box)] + after)
      && Run(c', before + [PackageReceived(pkg, box)] + after) == Run(c', before + after)
  {
    var report := PackageReceived(pkg, box);
    var c' := Next(c, report);
    ArrivalEndsTransit(c, box, pkg);
    RunStaysOutOfTransit(c', before, box, pkg);
    var mid := Run(c', before);
    ArrivalIsIdleIff(mid, box, pkg);
    assert Run(mid, [report]) == mid && AllAllowed(mid, [report]);
    RunSplit(c', before, after);
    RunSplit(c', before, [report]);
    RunSplit(c', before + [report], after);
  }

  // ---- a package's way through a box ----

  lemma SentIsInTransit(c: Convs, pkg: int, t: PackageType)
    requires Taker(c, t).Some?
    ensures var k, c1 := Taker(c, t).value, Next(c, SendPackage(pkg, t));
      && c1[k].box.id == c[k].box.id && pkg in c1[k].box.transit
      && (forall l :: l in c && l != k ==> c1[l] == c[l])
      && Holders(c1, c[k].box.id) == if t == INVALID then Holders(c, c[k].box.id) - {k} else Holders(c, c[k].box.id)
  {
  }

  /**
   A package that no box holds is accepted. After its arrival is reported under
   the id of the box that took it, a request for its removal succeeds if and only
   if its type is not INVALID, the id is not that of no box, and the lookup for
   the id finds that very box.
   */
  lemma DeliveredIffFound(c: Convs, pkg: int, t: PackageType)
    requires Taker(c, t).Some? && pkg !in Held(c)
    ensures var k := Taker(c, t).value;
      var id := c[k].box.id;
      var c1 := Next(c, SendPackage(pkg, t));
      var c2 := Next(c1, PackageReceived(pkg, id));
      RemoveResultOf(c2, id, pkg) == Removed <==> t != INVALID && id != INVALID_BOX_ID && BoxKey(c, id) == Some(k)
  {
    var k := Taker(c, t).value;
    var id := c[k].box.id;
    var c1 := Next(c, SendPackage(pkg, t));
    var c2 := Next(c1, PackageReceived(pkg, id));
    SentIsInTransit(c, pkg, t);
    assert Holders(c2, id) == Holders(c1, id);
    assert forall l :: l in c ==> pkg !in c[l].box.stored && pkg !in c[l].box.transit by {
      forall l | l in c
        ensures pkg !in c[l].box.Contents()
      {
        BoxIsHeld(c, l);
      }
    }
    if BoxAvailable(c1, id) && BoxKey(c1, id) == Some(k) {
      assert pkg in c2[k].box.stored;
    }
  }
}
