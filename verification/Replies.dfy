/** What clients and conveyors are told in answer to each request, and what a request makes of a package. */
module Replies {
  import opened CentralTypes
  import opened Boxes
  import opened Conveyors
  import opened Graphs
  import opened Messages
  import opened Sets
  import opened Systems
  import opened SystemProofs

  // ---- which box a request is about ----

  predicate HasBox(c: Convs, k: int, box: int) {
    k in c && c[k].box.Initialized() && c[k].box.id == box
  }

  /** A request that names the box is about the one at conveyor `k`, the lowest-numbered one with the id. */
  ghost predicate FoundAt(c: Convs, box: int, k: int) {
    box != -1 && HasBox(c, k, box) && forall l :: HasBox(c, l, box) ==> k <= l
  }

  ghost predicate Nowhere(c: Convs, box: int) {
    box == -1 || forall k :: !HasBox(c, k, box)
  }

  lemma LookupFinds(c: Convs, box: int, k: int)
    requires FoundAt(c, box, k)
    ensures BoxAvailable(c, box) && BoxKey(c, box) == Some(k) && ClearKey(c, box) == k
  {
    assert k in Holders(c, box);
    assert forall l :: l in Holders(c, box) ==> HasBox(c, l, box);
  }

  lemma LookupFails(c: Convs, box: int)
    requires Nowhere(c, box)
    ensures !BoxAvailable(c, box)
  {
    if BoxKey(c, box).Some? {
      assert HasBox(c, Least(Holders(c, box)), box);
    }
  }

  /** A request is about exactly one box, or none. */
  lemma FoundOrNowhere(c: Convs, box: int)
    ensures Nowhere(c, box) <==> forall k :: !FoundAt(c, box, k)
    ensures forall k, l :: FoundAt(c, box, k) && FoundAt(c, box, l) ==> k == l
  {
    if box != -1 && exists k :: HasBox(c, k, box) {
      var k :| HasBox(c, k, box);
      assert k in Holders(c, box);
      var least := Least(Holders(c, box));
      assert forall l :: HasBox(c, l, box) ==> l in Holders(c, box);
      assert FoundAt(c, box, least);
    }
  }

  // ---- answers ----

  /** The ids in the table are its keys, as in every reachable table. */
  ghost predicate Keyed(c: Convs) {
    forall k :: k in c ==> c[k].id == k
  }

  /** A clear is requested from the conveyor of the box that is found; the client only hears of a box that is not. */
  lemma ClearRequestAnswer(c: Convs, box: int, k: int)
    requires Keyed(c)
    ensures FoundAt(c, box, k) ==> Outputs(c, RequestClear(box)) == [ToAnt(ClearBox(k, box))]
    ensures Nowhere(c, box) ==> Outputs(c, RequestClear(box)) == [ToWeb(ClearBoxReply(box, None))]
  {
    if FoundAt(c, box, k) {
      LookupFinds(c, box, k);
    }
    if Nowhere(c, box) {
      LookupFails(c, box);
    }
  }

  /** A removal is ordered and confirmed for a stored package; every other case has its own reply and no order. */
  lemma RemovalAnswer(c: Convs, box: int, p: int, k: int)
    requires Keyed(c)
    ensures var out := Outputs(c, RemoveFrom(box, p));
      && (FoundAt(c, box, k) ==>
            var b := c[k].box;
            && (p in b.stored ==>
                  out == [ToAnt(RemovePackage(k, p, box)), ToWeb(RemovePackageReply(p, box, Removed))])
            && (p !in b.stored && p in b.transit ==> out == [ToWeb(RemovePackageReply(p, box, InTransit))])
            && (p !in b.stored && p !in b.transit ==> out == [ToWeb(RemovePackageReply(p, box, NotInBox))]))
      && (Nowhere(c, box) ==> out == [ToWeb(RemovePackageReply(p, box, NoSuchBox))])
  {
    if FoundAt(c, box, k) {
      LookupFinds(c, box, k);
    }
    if Nowhere(c, box) {
      LookupFails(c, box);
    }
  }

  /** A client that asks for a box is told its id, its type, and which packages are on their way and which are in it. */
  lemma StateAnswer(c: Convs, box: int, k: int)
    ensures FoundAt(c, box, k) ==>
      Outputs(c, GetBoxState(box)) == [ToWeb(BoxStateReply(box, c[k].box.ptype, c[k].box.transit, c[k].box.stored))]
    ensures Nowhere(c, box) ==> Outputs(c, GetBoxState(box)) == []
  {
    if FoundAt(c, box, k) {
      LookupFinds(c, box, k);
    }
    if Nowhere(c, box) {
      LookupFails(c, box);
    }
  }

  /** Every arrival in a box that exists is confirmed, a repeated one too; any other is not. */
  lemma ArrivalAnswer(c: Convs, box: int, p: int, k: int)
    ensures FoundAt(c, box, k) ==> Outputs(c, PackageReceived(p, box)) == [ToWeb(PackageReceivedReply(p, box))]
    ensures Nowhere(c, box) ==> Outputs(c, PackageReceived(p, box)) == []
  {
    if FoundAt(c, box, k) {
      LookupFinds(c, box, k);
    }
    if Nowhere(c, box) {
      LookupFails(c, box);
    }
  }

  /** The client is told the box that the package was sent to, and of a failure only if it was sent nowhere. */
  lemma SendAnswer(c: Convs, pkg: int, t: PackageType)
    ensures var out, c' := Outputs(c, SendPackage(pkg, t)), Next(c, SendPackage(pkg, t));
      || (out == [ToWeb(AddPackageReply(pkg, None))] && c' == c
          && forall k :: k in c && c[k].box.Initialized() && CanAccept(c[k].box, t) ==> c[k].box.Full())
      || exists k :: k in c && pkg in c'[k].box.transit && c'[k].box.ptype == t
           && (forall l :: l in c && l != k ==> c'[l] == c[l])
           && out == [ToAnt(AddPackage(c[k].box.id, pkg, t)), ToWeb(AddPackageReply(pkg, Some(c[k].box.id)))]
  {
    if Taker(c, t).None? {
      EmptyOrInhabited(Takers(c, t));
      forall k | k in c && c[k].box.Initialized() && CanAccept(c[k].box, t)
        ensures c[k].box.Full()
      {
        assert k !in Takers(c, t);
      }
    } else {
      var k := Taker(c, t).value;
      assert pkg in Next(c, SendPackage(pkg, t))[k].box.transit;
    }
  }

  /**
   The client is told of the very packages that the conveyor cleared. From the
   box that is found these are what leaves; a package that is in it twice, which
   happens when its id is used again, stays stored.
   */
  lemma ClearAnswer(c: Convs, box: int, pkgs: set<int>, k: int)
    requires Allowed(c, ClearCompleted(box, pkgs))
    ensures Outputs(c, ClearCompleted(box, pkgs)) == [ToWeb(ClearBoxReply(box, Some(pkgs)))]
    ensures FoundAt(c, box, k) ==>
      forall p :: var b, b' := c[k].box, Next(c, ClearCompleted(box, pkgs))[k].box;
        && (p in b'.transit <==> p in b.transit && p !in pkgs)
        && (p in b'.stored <==> p in b.stored && (p !in pkgs || p in b.transit))
  {
    if FoundAt(c, box, k) {
      LookupFinds(c, box, k);
    }
  }

  /** What an arrival and a removal change in the box that is found; every other box stays as it is. */
  lemma BoxEffects(c: Convs, box: int, pkg: int, k: int)
    requires FoundAt(c, box, k)
    ensures var b, b' := c[k].box, Next(c, PackageReceived(pkg, box))[k].box;
      && b'.transit == b.transit - {pkg}
      && b'.stored == if pkg in b.transit then b.stored + {pkg} else b.stored
    ensures var b, b' := c[k].box, Next(c, RemoveFrom(box, pkg))[k].box;
      b'.transit == b.transit && b'.stored == b.stored - {pkg}
    ensures forall l :: l in c && l != k ==>
      Next(c, PackageReceived(pkg, box))[l] == c[l] && Next(c, RemoveFrom(box, pkg))[l] == c[l]
  {
    LookupFinds(c, box, k);
  }

  // ---- requests for boxes ----

  /** A conveyor that has a box answers that it has one, whatever location is asked for. */
  lemma BoxedAnswer(c: Convs, op: Op)
    requires op.AddBox? && Allowed(c, op) && op.conveyor in c && c[op.conveyor].box.Initialized()
    ensures Outputs(c, op) == [ToWeb(AddBoxReply(op.box, op.conveyor, AlreadyHasBox))] && Next(c, op) == c
  {
  }

  /** No reconfiguration, and the conveyor's box is not lost to a package of type INVALID. */
  ghost predicate KeepsItsBox(c: Convs, ops: seq<Op>, k: int)
    requires AllAllowed(c, ops)
    decreases |ops|
  {
    ops != [] ==>
      && !ops[0].SetState?
      && !(Orphans(c, ops[0]) && Taker(c, INVALID) == Some(k))
      && KeepsItsBox(Next(c, ops[0]), ops[1..], k)
  }

  lemma {:induction false} StaysBoxed(c: Convs, ops: seq<Op>, k: int)
    requires AllAllowed(c, ops) && k in c && c[k].box.Initialized() && KeepsItsBox(c, ops, k)
    ensures k in Run(c, ops) && Run(c, ops)[k].box.Initialized()
    decreases |ops|
  {
    if ops != [] {
      StaysBoxed(Next(c, ops[0]), ops[1..], k);
    }
  }

  /**
   After a box was accepted at a conveyor, every later request there is answered
   that it already has a box, for as long as it keeps it.
   */
  lemma SecondBoxIsRefused(c: Convs, first: Op, ops: seq<Op>, second: Op)
    requires Allowed(c, first) && Accepts(c, first)
    requires AllAllowed(Next(c, first), ops) && KeepsItsBox(Next(c, first), ops, first.conveyor)
    requires second.AddBox? && second.conveyor == first.conveyor
    ensures var now := Run(Next(c, first), ops);
      && Allowed(now, second)
      && Outputs(now, second) == [ToWeb(AddBoxReply(second.box, first.conveyor, AlreadyHasBox))]
      && Next(now, second) == now
  {
    StaysBoxed(Next(c, first), ops, first.conveyor);
    BoxedAnswer(Run(Next(c, first), ops), second);
  }

  /** What a box request is answered right after a configuration. */
  lemma AnswerAfterConfiguration(config: seq<Listing>, i: nat, box: int, location: nat, route: seq<int>)
    requires DistinctIds(config) && i < |config| && location < 4
    requires Allowed(Configured(config), AddBox(config[i].id, box, location, route))
    ensures var out := Outputs(Configured(config), AddBox(config[i].id, box, location, route));
      && out != []
      && out[|out| - 1] == ToWeb(AddBoxReply(box, config[i].id,
           if exists j: nat :: LastListed(config[i].listed, location, j) then LocationTaken else Accepted))
      && ((exists j: nat :: LastListed(config[i].listed, location, j)) ==> |out| == 1)
  {
    ConfiguredKeys(config);
    ConfiguredAt(config, i);
    SlotHoldsLastListed(Ids(config[..i]), config[i].listed, location);
  }

  lemma UnknownConveyorAnswer(config: seq<Listing>, k: int, box: int, location: int, route: seq<int>)
    requires k !in Ids(config)
    ensures Allowed(Configured(config), AddBox(k, box, location, route))
    ensures Outputs(Configured(config), AddBox(k, box, location, route)) ==
      [ToWeb(AddBoxReply(box, k, NoSuchConveyor))]
  {
    ConfiguredKeys(config);
  }

  /** The slot of a box stays taken, even when the box itself is lost. */
  lemma {:induction false} LocationStaysTaken(c: Convs, ops: seq<Op>, k: int, location: nat)
    requires AllAllowed(c, ops) && forall i :: 0 <= i < |ops| ==> !ops[i].SetState?
    requires k in c && location < |c[k].slots| && c[k].slots[location].target != -1
    ensures var c' := Run(c, ops);
      && k in c' && location < |c'[k].slots| && c'[k].slots[location].target != -1
      && RefusalOf(c', k, location) == if c'[k].box.Initialized() then AlreadyHasBox else LocationTaken
    decreases |ops|
  {
    if ops != [] {
      LocationStaysTaken(Next(c, ops[0]), ops[1..], k, location);
    }
  }

  /** Where a box was accepted, no other request is, until a reconfiguration: not even when the box is lost. */
  lemma AcceptedLocationStaysTaken(c: Convs, first: Op, ops: seq<Op>)
    requires Allowed(c, first) && Accepts(c, first) && AllAllowed(Next(c, first), ops)
    requires forall i :: 0 <= i < |ops| ==> !ops[i].SetState?
    ensures var c' := Run(Next(c, first), ops);
      first.conveyor in c' && RefusalOf(c', first.conveyor, first.location) ==
        if c'[first.conveyor].box.Initialized() then AlreadyHasBox else LocationTaken
  {
    LocationStaysTaken(Next(c, first), ops, first.conveyor, first.location);
  }

  // ---- a package's life ----

  /** The package is on its way to the box: the client is told so, and asking for it is refused. */
  ghost predicate OnItsWay(c: Convs, box: int, p: int, t: PackageType) {
    && Outputs(c, RemoveFrom(box, p)) == [ToWeb(RemovePackageReply(p, box, InTransit))]
    && exists transit, stored :: p in transit && p !in stored
         && Outputs(c, GetBoxState(box)) == [ToWeb(BoxStateReply(box, t, transit, stored))]
  }

  /** The package is in the box: the client is told so, and asking for it sends it out. */
  ghost predicate InStore(c: Convs, box: int, p: int, t: PackageType, k: int) {
    && Outputs(c, RemoveFrom(box, p)) ==
         [ToAnt(RemovePackage(k, p, box)), ToWeb(RemovePackageReply(p, box, Removed))]
    && exists transit, stored :: p !in transit && p in stored
         && Outputs(c, GetBoxState(box)) == [ToWeb(BoxStateReply(box, t, transit, stored))]
  }

  lemma SameHolders(c: Convs, c': Convs, box: int, k: int)
    requires FoundAt(c, box, k) && c'.Keys == c.Keys
    requires forall l :: l in c ==>
      (c'[l].box.Initialized() <==> c[l].box.Initialized()) && c'[l].box.id == c[l].box.id
    ensures FoundAt(c', box, k)
  {
    assert forall l :: HasBox(c', l, box) <==> HasBox(c, l, box);
  }

  /** The package is in the box no more. */
  ghost predicate Gone(c: Convs, box: int, p: int) {
    Outputs(c, RemoveFrom(box, p)) == [ToWeb(RemovePackageReply(p, box, NotInBox))]
  }

  lemma SentIsOnItsWay(c: Convs, pkg: int, t: PackageType, k: int)
    requires Keyed(c) && Taker(c, t) == Some(k) && t != INVALID && FoundAt(c, c[k].box.id, k)
    requires pkg !in c[k].box.Contents()
    ensures var id, c1 := c[k].box.id, Next(c, SendPackage(pkg, t));
      && Keyed(c1) && FoundAt(c1, id, k) && OnItsWay(c1, id, pkg, t)
      && c1[k].box.ptype == t && pkg in c1[k].box.transit && pkg !in c1[k].box.stored
  {
    var id, c1 := c[k].box.id, Next(c, SendPackage(pkg, t));
    SameHolders(c, c1, id, k);
    RemovalAnswer(c1, id, pkg, k);
    StateAnswer(c1, id, k);
  }

  lemma ArrivedIsInStore(c: Convs, box: int, pkg: int, k: int)
    requires Keyed(c) && FoundAt(c, box, k) && pkg in c[k].box.transit && pkg !in c[k].box.stored
    ensures var c1 := Next(c, PackageReceived(pkg, box));
      && Keyed(c1) && FoundAt(c1, box, k) && InStore(c1, box, pkg, c[k].box.ptype, k)
      && pkg !in c1[k].box.transit && pkg in c1[k].box.stored
  {
    var c1 := Next(c, PackageReceived(pkg, box));
    LookupFinds(c, box, k);
    SameHolders(c, c1, box, k);
    RemovalAnswer(c1, box, pkg, k);
    StateAnswer(c1, box, k);
  }

  lemma RemovedIsGone(c: Convs, box: int, pkg: int, k: int)
    requires Keyed(c) && FoundAt(c, box, k) && pkg !in c[k].box.transit && pkg in c[k].box.stored
    ensures Gone(Next(c, RemoveFrom(box, pkg)), box, pkg)
  {
    var c1 := Next(c, RemoveFrom(box, pkg));
    LookupFinds(c, box, k);
    SameHolders(c, c1, box, k);
    RemovalAnswer(c1, box, pkg, k);
  }

  /**
   A package that its box did not hold, accepted by the box found under its id:
   it is on its way until its arrival is reported, then in store until it is
   removed, and then in the box no more.
   */
  lemma PackageLife(c: Convs, pkg: int, t: PackageType, k: int)
    requires Keyed(c) && Taker(c, t) == Some(k) && t != INVALID && FoundAt(c, c[k].box.id, k)
    requires pkg !in c[k].box.Contents()
    ensures var id := c[k].box.id;
      var c1 := Next(c, SendPackage(pkg, t));
      var c2 := Next(c1, PackageReceived(pkg, id));
      OnItsWay(c1, id, pkg, t) && InStore(c2, id, pkg, t, k) && Gone(Next(c2, RemoveFrom(id, pkg)), id, pkg)
  {
    var id := c[k].box.id;
    var c1 := Next(c, SendPackage(pkg, t));
    var c2 := Next(c1, PackageReceived(pkg, id));
    SentIsOnItsWay(c, pkg, t, k);
    ArrivedIsInStore(c1, id, pkg, k);
    RemovedIsGone(c2, id, pkg, k);
  }

  // ---- the graph of a configuration ----

  /** A conveyor is among those that the slots of a list name. */
  ghost predicate Leads(listed: seq<int>, v: int) {
    v >= 1 && exists k: nat, j: nat :: k < 4 && LastListed(listed, k, j) && listed[j] == v
  }

  lemma HopsOfList(seen: set<int>, listed: seq<int>, v: int)
    ensures v in Hops(Connected(seen, listed)) <==> Leads(listed, v)
  {
    var slots := Connected(seen, listed);
    forall k: nat | k < 4
      ensures forall j: nat :: LastListed(listed, k, j) ==> slots[k].target == listed[j]
      ensures slots[k].target >= 1 ==> exists j: nat :: LastListed(listed, k, j)
    {
      SlotHoldsLastListed(seen, listed, k);
    }
    if v in Hops(slots) {
      var k: nat :| k < 4 && slots[k].target == v;
      var j: nat :| LastListed(listed, k, j);
      assert listed[j] == v;
    }
    if Leads(listed, v) {
      var k: nat, j: nat :| k < 4 && LastListed(listed, k, j) && listed[j] == v;
      assert slots[k].target == v;
    }
  }

  /** The conveyors that a configured conveyor leads to are those that its slots keep of its list. */
  lemma ConfiguredEdges(config: seq<Listing>, i: nat, v: int)
    requires DistinctIds(config) && i < |config|
    ensures Edge(Net(Configured(config)), config[i].id, v) <==> Leads(config[i].listed, v)
  {
    ConfiguredAt(config, i);
    HopsOfList(Ids(config[..i]), config[i].listed, v);
  }
}
