module ConveyorSystemClass {
  import opened CentralTypes
  import opened Boxes
  import opened Conveyors
  import opened ConveyorClass
  import opened DestinationBoxes
  import opened Graphs
  import opened Messages
  import opened Sequences
  import opened Sets
  import opened RoutingProofs
  import opened SystemProofs
  import opened Systems
  import S = Search

  lemma LeastIs(s: set<int>, k: int)
    requires k in s && forall y :: y in s ==> k <= y
    ensures Least(s) == k
  {
  }

  lemma AttachKeepsRoutes(c: Convs, k: int, box: int, location: int)
    requires k in c && 0 <= location < |c[k].slots| && c[k].slots[location].target == EMPTY_CONVEYOR_ID
    ensures var c' := c[k := AttachBox(c[k], box, location)];
      Net(c') == Net(c)
  {
    BoxSlotIsNoHop(c[k].slots, location);
    var c' := c[k := AttachBox(c[k], box, location)];
    assert forall l :: l in c ==> Net(c')[l] == Net(c)[l];
  }

  /** What the program demands of its callers when a box is added. */
  ghost predicate AddReady(c: Convs, k: int, location: int) {
    && (k in c && !c[k].box.Initialized() ==> 0 <= location < CONVEYOR_MAX_CONNECTIONS)
    && (RefusalOf(c, k, location) == Accepted ==>
          Closed(Net(c)) && INPUT_CONVEYOR_ID in c && Reachable(Net(c), INPUT_CONVEYOR_ID, k))
  }

  ghost function AcceptOutputs(k: int, box: int, location: int, route: seq<int>): seq<Output> {
    [ToAnt(ConnectBox(k, box, location))] + AntAll(Plan(route, box)) + [ToWeb(AddBoxReply(box, k, Accepted))]
  }

  lemma AcceptedAdd(c: Convs, k: int, box: int, location: int, route: seq<int>)
    requires Slotted(c) && AddReady(c, k, location) && RefusalOf(c, k, location) == Accepted
    requires IsShortest(Net(c), route, INPUT_CONVEYOR_ID, k)
    ensures var add := AddBox(k, box, location, route);
      && Allowed(c, add)
      && Next(c, add) == c[k := AttachBox(c[k], box, location)]
      && Outputs(c, add) == AcceptOutputs(k, box, location, route)
  {
  }

  lemma RefusedAdd(c: Convs, k: int, box: int, location: int)
    requires Slotted(c) && AddReady(c, k, location) && RefusalOf(c, k, location) != Accepted
    ensures var add := AddBox(k, box, location, []);
      && Allowed(c, add) && Next(c, add) == c
      && Outputs(c, add) == [ToWeb(AddBoxReply(box, k, RefusalOf(c, k, location)))]
  {
  }

  function SendOutputs(box: int, pkg: int, t: PackageType): seq<Output> {
    [ToAnt(AddPackage(box, pkg, t)), ToWeb(AddPackageReply(pkg, Some(box)))]
  }

  lemma SendEffect(c: Convs, pkg: int, t: PackageType)
    ensures var send, taker := SendPackage(pkg, t), Taker(c, t);
      && Next(c, send) == (if taker.None? then c else WithBox(c, taker.value, Add(c[taker.value].box, pkg, t)))
      && Outputs(c, send) ==
           (if taker.None? then [ToWeb(AddPackageReply(pkg, None))] else SendOutputs(c[taker.value].box.id, pkg, t))
  {
  }

  lemma ReceiveEffect(c: Convs, pkg: int, box: int)
    ensures var arrive, k := PackageReceived(pkg, box), BoxKey(c, box);
      if BoxAvailable(c, box) then
        && Next(c, arrive) == WithBox(c, k.value, Receive(c[k.value].box, pkg))
        && Outputs(c, arrive) == [ToWeb(PackageReceivedReply(pkg, box))]
      else
        Next(c, arrive) == c && Outputs(c, arrive) == []
  {
  }

  /** Equal but for the route that a box request names. */
  predicate SameButRoute(a: Op, b: Op) {
    a == b || (a.AddBox? && b.AddBox? && a.conveyor == b.conveyor && a.box == b.box && a.location == b.location)
  }

  lemma RouteChangesNoTable(c: Convs, a: Op, b: Op)
    requires Allowed(c, a) && Allowed(c, b) && SameButRoute(a, b)
    ensures Next(c, a) == Next(c, b)
  {
  }

  predicate SameButRoutes(ops: seq<Op>, done: seq<Op>) {
    |done| == |ops| && forall i :: 0 <= i < |ops| ==> SameButRoute(ops[i], done[i])
  }

  lemma SameWithFirst(ops: seq<Op>, first: Op, rest: seq<Op>)
    requires ops != [] && SameButRoute(ops[0], first) && SameButRoutes(ops[1..], rest)
    ensures SameButRoutes(ops, [first] + rest)
  {
    forall i | 0 <= i < |ops|
      ensures SameButRoute(ops[i], ([first] + rest)[i])
    {
      assert i > 0 ==> ops[i] == ops[1..][i - 1];
    }
  }

  /** The operations, with the routes that were found, lead from one table and output to another. */
  ghost predicate Performed(c: Convs, sent: seq<Output>, ops: seq<Op>, done: seq<Op>, c': Convs, out: seq<Output>) {
    && SameButRoutes(ops, done)
    && AllAllowed(c, done)
    && c' == Run(c, done) && out == sent + RunOutputs(c, done)
  }

  lemma NothingPerformed(c: Convs, out: seq<Output>)
    ensures Performed(c, out, [], [], c, out)
  {
  }

  lemma FirstPerformed(c: Convs, ops: seq<Op>, first: Op)
    requires ops != [] && AllAllowed(c, ops) && Allowed(c, first) && SameButRoute(ops[0], first)
    ensures AllAllowed(Next(c, first), ops[1..])
  {
    RouteChangesNoTable(c, ops[0], first);
  }

  lemma RestPerformed(c: Convs, sent: seq<Output>, ops: seq<Op>, first: Op, rest: seq<Op>, c': Convs, out: seq<Output>)
    requires ops != [] && Allowed(c, first) && SameButRoute(ops[0], first)
    requires Performed(Next(c, first), sent + Outputs(c, first), ops[1..], rest, c', out)
    ensures Performed(c, sent, ops, [first] + rest, c', out)
  {
    RunTakes(c, first, rest);
    SameWithFirst(ops, first, rest);
    Associate(sent, Outputs(c, first), RunOutputs(Next(c, first), rest));
  }

  lemma AllowedIsReady(c: Convs, add: Op)
    requires add.AddBox? && Slotted(c) && Allowed(c, add)
    ensures AddReady(c, add.conveyor, add.location)
  {
  }

  lemma AntAllConcat(a: seq<Command>, b: seq<Command>)
    ensures AntAll(a + b) == AntAll(a) + AntAll(b)
  {
  }

  /** Processing one more listing. */
  lemma ConfigureStep(config: seq<Listing>, n: nat)
    requires n < |config|
    ensures var before, e := Configured(config[..n]), config[n];
      && Configured(config[..n + 1]) == before[e.id := Conv(e.id, Connected(before.Keys, e.listed), NEW_BOX)]
      && AntAll(ConfigureCommands(config[..n + 1])) ==
           AntAll(ConfigureCommands(config[..n])) + AntAll(ConnectCommands(e.id, before.Keys, e.listed))
  {
    assert config[..n + 1][..n] == config[..n];
    AntAllConcat(ConfigureCommands(config[..n]),
                 ConnectCommands(config[n].id, Configured(config[..n]).Keys, config[n].listed));
  }

  lemma NextLocation(i: nat)
    ensures (i + 1) % CONVEYOR_MAX_CONNECTIONS ==
      if i % CONVEYOR_MAX_CONNECTIONS == 3 then 0 else i % CONVEYOR_MAX_CONNECTIONS + 1
  {
  }

  /** Processing one more listed connection. */
  lemma ConnectStep(e: Listing, seen: set<int>, n: nat)
    requires n < |e.listed|
    ensures var t := e.listed[n];
      if t == EMPTY_CONVEYOR_ID then
        && Connected(seen, e.listed[..n + 1]) == Connected(seen, e.listed[..n])
        && AntAll(ConnectCommands(e.id, seen, e.listed[..n + 1])) == AntAll(ConnectCommands(e.id, seen, e.listed[..n]))
      else
        var location, role := n % CONVEYOR_MAX_CONNECTIONS, RoleTowards(seen, t);
        && Connected(seen, e.listed[..n + 1]) == Connected(seen, e.listed[..n])[location := Slot(t, role)]
        && AntAll(ConnectCommands(e.id, seen, e.listed[..n + 1])) ==
             AntAll(ConnectCommands(e.id, seen, e.listed[..n])) + [ToAnt(Connect(e.id, t, role, location))]
  {
    assert e.listed[..n + 1][..n] == e.listed[..n];
  }

  class ConveyorSystem {
    var conveyors: map<int, Conveyor>
    var out: seq<Output>  // everything sent so far, to the ANT thread and to web clients

    ghost var table: Convs  // the conveyors' values

    ghost function Objects(): set<object>
      reads this`conveyors
    {
      (set k | k in conveyors :: conveyors[k] as object) + (set k | k in conveyors :: conveyors[k].box as object)
    }

    /** `table` mirrors the objects, and each key has its own: conveyors are held by value. */
    ghost predicate Valid()
      reads this`conveyors, this`table, Objects()
    {
      && table.Keys == conveyors.Keys
      && (forall k :: k in conveyors ==> conveyors[k].View() == table[k])
      && (forall k :: k in conveyors ==> conveyors[k].id == k && conveyors[k].box.owner == k)
      && Slotted(table)
    }

    constructor ()
      ensures Valid() && table == map[] && out == []
    {
      conveyors := map[];
      table := map[];
      out := [];
    }

    method Send(cmd: Command)
      modifies this`out
      ensures out == old(out) + [ToAnt(cmd)]
    {
      out := out + [ToAnt(cmd)];
    }

    method Answer(reply: Reply)
      modifies this`out
      ensures out == old(out) + [ToWeb(reply)]
    {
      out := out + [ToWeb(reply)];
    }

    // ---- lookups ----

    method BoxIsAvailable(box: int) returns (available: bool)
      requires Valid()
      ensures available == BoxAvailable(table, box)
    {
      if box == INVALID_BOX_ID {
        return false;
      }
      available := false;
      var rest := conveyors.Keys;
      while rest != {}
        invariant rest <= conveyors.Keys
        invariant forall k :: k in conveyors && k !in rest ==> k !in Holders(table, box)
      {
        var k := Least(rest);
        var has := conveyors[k].box.IsInitialized();
        if has && conveyors[k].box.id == box {
          assert k in Holders(table, box);
          available := true;
          return;
        }
        rest := rest - {k};
      }
      assert forall k :: k in conveyors ==> k !in Holders(table, box);
      assert Holders(table, box) == {};
    }

    /** The conveyor holding the box; the input conveyor when there is none. */
    method GetConveyorFromBox(box: int) returns (conveyor: Conveyor)
      requires Valid() && (BoxKey(table, box).Some? || INPUT_CONVEYOR_ID in conveyors)
      ensures ClearKey(table, box) in conveyors && conveyor == conveyors[ClearKey(table, box)]
    {
      var rest := conveyors.Keys;
      while rest != {}
        invariant rest <= conveyors.Keys
        invariant forall k :: k in conveyors && k !in rest ==> k !in Holders(table, box)
      {
        var k := Least(rest);
        var has := conveyors[k].box.IsInitialized();
        if has && conveyors[k].box.id == box {
          assert k in Holders(table, box);
          LeastIs(Holders(table, box), k);
          return conveyors[k];
        }
        rest := rest - {k};
      }
      assert forall k :: k in conveyors ==> k !in Holders(table, box);
      assert Holders(table, box) == {};
      return conveyors[INPUT_CONVEYOR_ID];
    }

    method FindBox(box: int) returns (b: DestinationBox)
      requires Valid() && (BoxKey(table, box).Some? || INPUT_CONVEYOR_ID in conveyors)
      ensures ClearKey(table, box) in conveyors && b == conveyors[ClearKey(table, box)].box
    {
      var conveyor := GetConveyorFromBox(box);
      b := conveyor.box;
    }

    // ---- routing ----

    /** A shortest path from the input conveyor, or the empty path exactly when there is none. */
    method CalculateRoutingPlan(target: int) returns (path: seq<int>)
      requires Valid()
      requires INPUT_CONVEYOR_ID in conveyors && Closed(Net(table))
      ensures S.RouteFound(Net(table), target, path)
    {
      var slots := map k | k in conveyors :: conveyors[k].connections;
      S.SlotGraphIsNet(slots, table);
      ghost var pops;
      path, pops := S.BreadthFirst(slots, target);
    }

    /** Sends each conveyor on the route its successor, and the last one itself. */
    method CreateRoutingPlan(box: int, target: int) returns (ghost route: seq<int>)
      requires Valid()
      requires INPUT_CONVEYOR_ID in conveyors && Closed(Net(table))
      requires Reachable(Net(table), INPUT_CONVEYOR_ID, target)
      modifies this`out
      ensures IsShortest(Net(table), route, INPUT_CONVEYOR_ID, target)
      ensures out == old(out) + AntAll(Plan(route, box))
    {
      var path := CalculateRoutingPlan(target);
      route := path;
      SendPlan(path, box);
    }

    method SendPlan(path: seq<int>, box: int)
      requires path != [] && path[0] == INPUT_CONVEYOR_ID && Simple(path)
      modifies this`out
      ensures out == old(out) + AntAll(Plan(path, box))
    {
      ghost var plan := AntAll(Plan(path, box));
      var prev := INPUT_CONVEYOR_ID;
      var i := 0;
      while i < |path|
        invariant 0 <= i <= |path|
        invariant i == 0 ==> prev == path[0] && out == old(out)
        invariant i > 0 ==> prev == path[i - 1] && out == old(out) + plan[..i - 1]
      {
        var current := path[i];
        if prev != current {
          assert plan[i - 1] == ToAnt(RoutingPlan(prev, box, current));
          assert plan[..i] == plan[..i - 1] + [plan[i - 1]];
          Send(RoutingPlan(prev, box, current));
          prev := current;
        }
        i := i + 1;
      }
      assert plan == plan[..i - 1] + [ToAnt(RoutingPlan(path[i - 1], box, path[i - 1]))];
      Send(RoutingPlan(path[|path| - 1], box, path[|path| - 1]));
    }

    // ---- operations ----

    /** Puts the package in one conveyor's box, if it is there and takes it. */
    method OfferPackage(k: int, pkg: int, ptype: PackageType) returns (sent: bool)
      requires Valid() && k in conveyors
      modifies this`table, Objects()
      ensures Valid()
      ensures sent <==> k in Takers(old(table), ptype)
      ensures table == if sent then WithBox(old(table), k, Add(old(table)[k].box, pkg, ptype)) else old(table)
    {
      sent := false;
      var box := conveyors[k].box;
      var has := box.IsInitialized();
      var accepts := box.CanAcceptPackage(ptype);
      if has && accepts {
        sent := box.AddPackage(pkg, ptype);
        if sent {
          table := WithBox(table, k, Add(table[k].box, pkg, ptype));
        }
      }
    }

    /** Tells the input conveyor where the package goes, and the client. */
    method AnnouncePackage(k: int, pkg: int, ptype: PackageType)
      requires Valid() && k in conveyors
      modifies this`out
      ensures out == old(out) + SendOutputs(table[k].box.id, pkg, ptype)
    {
      var box := conveyors[k].box.id;
      Send(AddPackage(box, pkg, ptype));
      Answer(AddPackageReply(pkg, Some(box)));
    }

    /** Takes a stored package out of one conveyor's box. */
    method RemoveFromBox(ghost k: int, box: DestinationBox, pkg: int) returns (removed: bool)
      requires Valid() && k in conveyors && box == conveyors[k].box
      modifies this`table, Objects()
      ensures Valid()
      ensures removed <==> pkg in old(table)[k].box.stored
      ensures table == WithBox(old(table), k, Remove(old(table)[k].box, pkg))
    {
      removed := box.RemovePackage(pkg);
      table := WithBox(table, k, Remove(table[k].box, pkg));
    }

    /** Marks a package in transit as stored in one conveyor's box. */
    method ReceiveInBox(ghost k: int, box: DestinationBox, pkg: int)
      requires Valid() && k in conveyors && box == conveyors[k].box
      modifies this`table, Objects()
      ensures Valid()
      ensures table == WithBox(old(table), k, Receive(old(table)[k].box, pkg))
    {
      box.PackageReceived(pkg);
      table := WithBox(table, k, Receive(table[k].box, pkg));
    }

    /** Drops packages from one conveyor's box. */
    method ClearInBox(ghost k: int, box: DestinationBox, removed: set<int>)
      requires Valid() && k in conveyors && box == conveyors[k].box
      modifies this`table, Objects()
      ensures Valid()
      ensures table == WithBox(old(table), k, Clear(old(table)[k].box, removed))
    {
      box.ClearBox(removed);
      table := WithBox(table, k, Clear(table[k].box, removed));
    }

    method ClearConfiguration()
      requires Valid()
      modifies this
      ensures Valid() && table == map[]
      ensures out == old(out) + AntAll(Disconnects(old(table).Keys))
    {
      var rest := conveyors.Keys;
      ghost var all := Disconnects(rest);
      ghost var sent := 0;
      while rest != {}
        invariant 0 <= sent <= |all| && Disconnects(rest) == all[sent..]
        invariant out == old(out) + AntAll(all[..sent])
      {
        var k := Least(rest);
        assert all[sent] == Disconnects(rest)[0];
        assert all[sent..][1..] == all[sent + 1..];
        assert AntAll(all[..sent + 1]) == AntAll(all[..sent]) + [ToAnt(all[sent])];
        Send(Disconnect(k));
        rest := rest - {k};
        sent := sent + 1;
      }
      assert all[..sent] == all;
      conveyors := map[];
      table := map[];
    }

    method GetDestinationBoxState(box: int)
      requires Valid()
      modifies this`out
      ensures out == old(out) + Outputs(old(table), GetBoxState(box))
    {
      var available := BoxIsAvailable(box);
      if available {
        var b := FindBox(box);
        Answer(BoxStateReply(b.id, b.packageType, b.packagesInTransit, b.packagesStored));
      }
    }

    method Attach(conveyor: int, box: int, location: int)
      requires Valid() && conveyor in conveyors && 0 <= location < CONVEYOR_MAX_CONNECTIONS
      modifies this`table, Objects()
      ensures Valid()
      ensures table == old(table)[conveyor := AttachBox(old(table)[conveyor], box, location)]
    {
      conveyors[conveyor].AddDestinationBox(box, location);
      table := table[conveyor := AttachBox(table[conveyor], box, location)];
    }

    /** Announces a box to its conveyor, sends its route, and confirms it. */
    method AnnounceBox(conveyor: int, box: int, location: int) returns (ghost route: seq<int>)
      requires Valid() && INPUT_CONVEYOR_ID in conveyors && Closed(Net(table))
      requires Reachable(Net(table), INPUT_CONVEYOR_ID, conveyor)
      modifies this`out
      ensures IsShortest(Net(table), route, INPUT_CONVEYOR_ID, conveyor)
      ensures out == old(out) + AcceptOutputs(conveyor, box, location, route)
    {
      Send(ConnectBox(conveyor, box, location));
      route := CreateRoutingPlan(box, conveyor);
      Answer(AddBoxReply(box, conveyor, Accepted));
    }

    /** A box that is not refused: it is attached to its free location, then announced. */
    method AcceptBox(conveyor: int, box: int, location: int) returns (ghost route: seq<int>)
      requires Valid() && AddReady(table, conveyor, location) && RefusalOf(table, conveyor, location) == Accepted
      modifies this`out, this`table, Objects()
      ensures Valid()
      ensures IsShortest(Net(old(table)), route, INPUT_CONVEYOR_ID, conveyor)
      ensures table == old(table)[conveyor := AttachBox(old(table)[conveyor], box, location)]
      ensures out == old(out) + AcceptOutputs(conveyor, box, location, route)
    {
      AttachKeepsRoutes(table, conveyor, box, location);
      Attach(conveyor, box, location);
      route := AnnounceBox(conveyor, box, location);
    }

    method AddDestinationBox(conveyor: int, box: int, location: int) returns (ghost route: seq<int>)
      requires Valid() && AddReady(table, conveyor, location)
      modifies this`out, this`table, Objects()
      ensures Valid()
      ensures Allowed(old(table), AddBox(conveyor, box, location, route))
      ensures table == Next(old(table), AddBox(conveyor, box, location, route))
      ensures out == old(out) + Outputs(old(table), AddBox(conveyor, box, location, route))
    {
      var refusal := CheckAddBox(conveyor, location);
      if refusal == Accepted {
        route := AcceptBox(conveyor, box, location);
        AcceptedAdd(old(table), conveyor, box, location, route);
      } else {
        route := [];
        RefusedAdd(table, conveyor, box, location);
        Answer(AddBoxReply(box, conveyor, refusal));
      }
    }

    /** Whether a box can be added there, and why not. */
    method CheckAddBox(conveyor: int, location: int) returns (refusal: Refusal)
      requires Valid()
      requires AddReady(table, conveyor, location)
      ensures refusal == RefusalOf(table, conveyor, location)
    {
      if conveyor !in conveyors {
        return NoSuchConveyor;
      }
      var has := conveyors[conveyor].box.IsInitialized();
      if has {
        return AlreadyHasBox;
      }
      var taken := conveyors[conveyor].HasConnectionAtLocation(location);
      return if taken then LocationTaken else Accepted;
    }

    /** Offers the package to the boxes in ascending order until one takes it. */
    method PlacePackage(pkg: int, ptype: PackageType) returns (taker: Option<int>)
      requires Valid()
      modifies this`table, Objects()
      ensures Valid()
      ensures taker == Taker(old(table), ptype)
      ensures table == if taker.None? then old(table)
        else WithBox(old(table), taker.value, Add(old(table)[taker.value].box, pkg, ptype))
    {
      taker := None;
      var rest := conveyors.Keys;
      while rest != {} && taker.None?
        invariant rest <= conveyors.Keys && Valid()
        invariant taker.None? ==> table == old(table)
        invariant taker.None? ==> forall k :: k in conveyors && k !in rest ==> k !in Takers(table, ptype)
        invariant taker.Some? ==> taker == Taker(old(table), ptype)
        invariant taker.Some? ==>
          table == WithBox(old(table), taker.value, Add(old(table)[taker.value].box, pkg, ptype))
        decreases rest
      {
        var k := Least(rest);
        var sent := OfferPackage(k, pkg, ptype);
        if sent {
          LeastIs(Takers(old(table), ptype), k);
          taker := Some(k);
        }
        rest := rest - {k};
      }
      if taker.None? {
        EmptyOrInhabited(Takers(table, ptype));
      }
    }

    method SendPackage(pkg: int, ptype: PackageType)
      requires Valid()
      modifies this`out, this`table, Objects()
      ensures Valid()
      ensures table == Next(old(table), Op.SendPackage(pkg, ptype))
      ensures out == old(out) + Outputs(old(table), Op.SendPackage(pkg, ptype))
    {
      var taker := PlacePackage(pkg, ptype);
      SendEffect(old(table), pkg, ptype);
      if taker.Some? {
        AnnouncePackage(taker.value, pkg, ptype);
      } else {
        Answer(AddPackageReply(pkg, None));
      }
    }

    method PackageReceived(pkg: int, box: int)
      requires Valid()
      modifies this`out, this`table, Objects()
      ensures Valid()
      ensures table == Next(old(table), Op.PackageReceived(pkg, box))
      ensures out == old(out) + Outputs(old(table), Op.PackageReceived(pkg, box))
    {
      var available := BoxIsAvailable(box);
      ReceiveEffect(table, pkg, box);
      if available {
        var b := FindBox(box);
        ReceiveInBox(BoxKey(table, box).value, b, pkg);
        Answer(PackageReceivedReply(pkg, box));
      }
    }

    /** Removes a package that the box has stored, and tells the box's conveyor. */
    method RemoveStored(box: int, pkg: int)
      requires Valid() && RemoveResultOf(table, box, pkg) == Removed
      modifies this`out, this`table, Objects()
      ensures Valid()
      ensures var k := BoxKey(old(table), box).value;
        && table == WithBox(old(table), k, Remove(old(table)[k].box, pkg))
        && out == old(out) + [ToAnt(Command.RemovePackage(old(table)[k].id, pkg, box))]
    {
      var conveyor := GetConveyorFromBox(box);
      var removed := RemoveFromBox(BoxKey(table, box).value, conveyor.box, pkg);
      Send(Command.RemovePackage(conveyor.id, pkg, box));
    }

    method RemovePackage(box: int, pkg: int)
      requires Valid()
      modifies this`out, this`table, Objects()
      ensures Valid()
      ensures table == Next(old(table), RemoveFrom(box, pkg))
      ensures out == old(out) + Outputs(old(table), RemoveFrom(box, pkg))
    {
      var result := NoSuchBox;
      var available := BoxIsAvailable(box);
      if available {
        var b := FindBox(box);
        var stored := b.HasPackageStored(pkg);
        var inTransit := b.HasPackageInTransit(pkg);
        if stored {
          RemoveStored(box, pkg);
          result := Removed;
        } else if inTransit {
          result := InTransit;
        } else {
          result := NotInBox;
        }
      }
      Answer(RemovePackageReply(pkg, box, result));
    }

    method ClearBox(box: int)
      requires Valid()
      modifies this`out
      ensures out == old(out) + Outputs(old(table), RequestClear(box))
    {
      var available := BoxIsAvailable(box);
      if available {
        var conveyor := GetConveyorFromBox(box);
        Send(Command.ClearBox(conveyor.id, box));
      } else {
        Answer(ClearBoxReply(box, None));
      }
    }

    method ClearBoxCompleted(box: int, removed: set<int>)
      requires Valid()
      requires BoxKey(table, box).Some? || INPUT_CONVEYOR_ID in conveyors
      modifies this`out, this`table, Objects()
      ensures Valid()
      ensures table == Next(old(table), ClearCompleted(box, removed))
      ensures out == old(out) + Outputs(old(table), ClearCompleted(box, removed))
    {
      Answer(ClearBoxReply(box, Some(removed)));
      var b := FindBox(box);
      ClearInBox(ClearKey(table, box), b, removed);
    }

    /** Every conveyor object was created since the call started. */
    twostate predicate AllFresh()
      reads this`conveyors
    {
      forall k :: k in conveyors ==> fresh(conveyors[k]) && fresh(conveyors[k].box)
    }

    /** Replaces the whole table by the one a configuration message describes. */
    method SetState(config: seq<Listing>)
      requires Valid()
      modifies this
      ensures Valid() && AllFresh()
      ensures table == Next(old(table), Op.SetState(config))
      ensures out == old(out) + Outputs(old(table), Op.SetState(config))
    {
      ClearConfiguration();
      Configure(config);
      AntAllConcat(Disconnects(old(table).Keys), ConfigureCommands(config));
    }

    method Configure(config: seq<Listing>)
      requires Valid() && table == map[]
      modifies this
      ensures Valid() && AllFresh()
      ensures table == Configured(config)
      ensures out == old(out) + AntAll(ConfigureCommands(config))
    {
      var n := 0;
      while n < |config|
        invariant 0 <= n <= |config|
        invariant Valid() && table == Configured(config[..n])
        invariant AllFresh()
        invariant out == old(out) + AntAll(ConfigureCommands(config[..n]))
      {
        ConfigureStep(config, n);
        AddConveyor(config[n]);
        n := n + 1;
      }
      assert config[..n] == config;
    }

    method AddConveyor(entry: Listing)
      requires Valid()
      modifies this
      ensures Valid()
      ensures forall k :: k in conveyors ==>
        (k in old(conveyors) && conveyors[k] == old(conveyors)[k]) || (fresh(conveyors[k]) && fresh(conveyors[k].box))
      ensures table == old(table)[entry.id := Conv(entry.id, Connected(old(table).Keys, entry.listed), NEW_BOX)]
      ensures out == old(out) + AntAll(ConnectCommands(entry.id, old(table).Keys, entry.listed))
    {
      var c := ConnectConveyor(entry);
      conveyors := conveyors[entry.id := c];
      table := table[entry.id := c.View()];
    }

    /** Fills one slot of a conveyor and announces the connection, unless none is listed. */
    method ConnectTo(c: Conveyor, target: int, location: int)
      requires 0 <= location < |c.connections|
      modifies c, this`out
      ensures target == EMPTY_CONVEYOR_ID ==> c.View() == old(c.View()) && out == old(out)
      ensures target != EMPTY_CONVEYOR_ID ==>
        var role := RoleTowards(conveyors.Keys, target);
        && c.View() == old(c.View()).(slots := old(c.connections)[location := Slot(target, role)])
        && out == old(out) + [ToAnt(Connect(c.id, target, role, location))]
    {
      var role := MASTER;
      if target in conveyors {
        role := SLAVE;
      }
      if target != EMPTY_CONVEYOR_ID {
        c.AddConnection(target, role, location);
        Send(Connect(c.id, target, role, location));
      }
    }

    /** Builds one conveyor from its list of connections, announcing each of them. */
    method ConnectConveyor(entry: Listing) returns (c: Conveyor)
      requires Valid()
      modifies this`out
      ensures fresh(c) && fresh(c.box) && c.id == entry.id && c.box.owner == entry.id
      ensures c.View() == Conv(entry.id, Connected(conveyors.Keys, entry.listed), NEW_BOX)
      ensures out == old(out) + AntAll(ConnectCommands(entry.id, conveyors.Keys, entry.listed))
    {
      c := new Conveyor(entry.id);
      var location := 0;
      var i := 0;
      while i < |entry.listed|
        invariant 0 <= i <= |entry.listed| && location == i % CONVEYOR_MAX_CONNECTIONS
        invariant c.View() == Conv(entry.id, Connected(conveyors.Keys, entry.listed[..i]), NEW_BOX)
        invariant out == old(out) + AntAll(ConnectCommands(entry.id, conveyors.Keys, entry.listed[..i]))
      {
        ConnectStep(entry, conveyors.Keys, i);
        NextLocation(i);
        ConnectTo(c, entry.listed[i], location);
        location := location + 1;
        if location > 3 {
          location := 0;
        }
        i := i + 1;
      }
      assert entry.listed[..i] == entry.listed;
    }

    // ---- whole runs ----

    /** Every conveyor and box was there before or was created since. */
    twostate predicate Confined()
      reads this`conveyors
    {
      forall o :: o in Objects() ==> o in old(Objects()) || fresh(o)
    }

    /** One operation; `done` names the route that the search found. */
    method Perform(op: Op) returns (ghost done: Op)
      requires Valid() && Allowed(table, op)
      modifies this, Objects()
      ensures Valid() && Confined()
      ensures SameButRoute(op, done) && Allowed(old(table), done)
      ensures table == Next(old(table), done) && out == old(out) + Outputs(old(table), done)
    {
      done := op;
      match op
      case SetState(config) => SetState(config);
      case AddBox(conveyor, box, location, _) =>
        AllowedIsReady(table, op);
        ghost var found := AddDestinationBox(conveyor, box, location);
        done := AddBox(conveyor, box, location, found);
      case GetBoxState(box) => GetDestinationBoxState(box);
      case SendPackage(pkg, ptype) => SendPackage(pkg, ptype);
      case PackageReceived(pkg, box) => PackageReceived(pkg, box);
      case RemoveFrom(box, pkg) => RemovePackage(box, pkg);
      case RequestClear(box) => ClearBox(box);
      case ClearCompleted(box, pkgs) => ClearBoxCompleted(box, pkgs);
    }

    /** Any sequence of operations that the program allows is a run of the step machine. */
    method PerformAll(ops: seq<Op>) returns (ghost done: seq<Op>)
      requires Valid() && AllAllowed(table, ops)
      modifies this, Objects()
      ensures Valid()
      ensures Performed(old(table), old(out), ops, done, table, out)
      decreases |ops|
    {
      if ops == [] {
        done := [];
        NothingPerformed(table, out);
      } else {
        ghost var c, sent := table, out;
        ghost var first := Perform(ops[0]);
        FirstPerformed(c, ops, first);
        done := PerformAll(ops[1..]);
        RestPerformed(c, sent, ops, first, done, table, out);
        done := [first] + done;
      }
    }
  }
}
