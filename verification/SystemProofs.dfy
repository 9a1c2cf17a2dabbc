/** What every run of the conveyor system keeps: box invariants and package conservation. */
module SystemProofs {
  import opened CentralTypes
  import opened Boxes
  import opened Conveyors
  import opened Messages
  import opened Sets
  import opened Systems

  // ---- well-formedness ----

  /** A package request of no colour that some box accepts. */
  predicate Spoils(c: Convs, op: Op) {
    op.SendPackage? && !Colour(op.ptype) && Taker(c, op.ptype).Some?
  }

  /** A package request of type INVALID that some box accepts. */
  predicate Orphans(c: Convs, op: Op) {
    op.SendPackage? && op.ptype == INVALID && Taker(c, INVALID).Some?
  }

  /** A new box is put where an uninitialised one still holds packages. */
  predicate Inherits(c: Convs, op: Op) {
    Accepts(c, op) && c[op.conveyor].box.Contents() != {}
  }

  lemma OthersKeepWellFormed(c: Convs, op: Op)
    requires WellFormed(c) && Allowed(c, op) && !op.SendPackage?
    ensures WellFormed(Next(c, op))
  {
    match op
    case SetState(config) => ConfiguredKeys(config);
    case AddBox(k, box, location, _) =>
    case PackageReceived(pkg, box) =>
      if BoxAvailable(c, box) {
        ReceiveKeepsInv(c[BoxKey(c, box).value].box, pkg);
      }
    case RemoveFrom(box, pkg) =>
      if RemoveResultOf(c, box, pkg) == Removed {
        RemoveKeepsInv(c[BoxKey(c, box).value].box, pkg);
      }
    case ClearCompleted(box, pkgs) => ClearKeepsInv(c[ClearKey(c, box)].box, pkgs);
    case _ =>
  }

  lemma SendKeepsWellFormedIff(c: Convs, pkg: int, t: PackageType)
    requires WellFormed(c)
    ensures WellFormed(Next(c, SendPackage(pkg, t))) <==> Colour(t) || Taker(c, t).None?
  {
    var taker := Taker(c, t);
    if taker.Some? {
      var k := taker.value;
      AddKeepsInv(c[k].box, pkg, t);
      assert Next(c, SendPackage(pkg, t))[k].box == Add(c[k].box, pkg, t);
    }
  }

  /** Every operation keeps the box invariants, but for accepting a package of no colour, which never does. */
  lemma NextKeepsWellFormedIff(c: Convs, op: Op)
    requires WellFormed(c) && Allowed(c, op)
    ensures WellFormed(Next(c, op)) <==> !Spoils(c, op)
  {
    if op.SendPackage? {
      SendKeepsWellFormedIff(c, op.pkg, op.ptype);
    } else {
      OthersKeepWellFormed(c, op);
    }
  }

  /** The box invariants hold after every operation of the run. */
  ghost predicate StaysWellFormed(c: Convs, ops: seq<Op>)
    requires AllAllowed(c, ops)
    decreases |ops|
  {
    WellFormed(c) && (ops != [] ==> StaysWellFormed(Next(c, ops[0]), ops[1..]))
  }

  ghost predicate NoneSpoils(c: Convs, ops: seq<Op>)
    requires AllAllowed(c, ops)
    decreases |ops|
  {
    ops != [] ==> !Spoils(c, ops[0]) && NoneSpoils(Next(c, ops[0]), ops[1..])
  }

  /** Capacity, emptiness and colour hold throughout a run exactly when every package accepted in it has a colour. */
  lemma {:induction false} StaysWellFormedIff(c: Convs, ops: seq<Op>)
    requires WellFormed(c) && AllAllowed(c, ops)
    ensures StaysWellFormed(c, ops) <==> NoneSpoils(c, ops)
    ensures NoneSpoils(c, ops) ==> WellFormed(Run(c, ops))
    decreases |ops|
  {
    if ops != [] {
      NextKeepsWellFormedIff(c, ops[0]);
      if !Spoils(c, ops[0]) {
        StaysWellFormedIff(Next(c, ops[0]), ops[1..]);
      }
    }
  }

  ghost predicate NoneOrphaned(c: Convs, ops: seq<Op>)
    requires AllAllowed(c, ops)
    decreases |ops|
  {
    ops != [] ==> !Orphans(c, ops[0]) && NoneOrphaned(Next(c, ops[0]), ops[1..])
  }

  /** Uninitialised boxes stay empty in a step exactly when it does not put a package of type INVALID into one. */
  lemma NextKeepsSealedIff(c: Convs, op: Op)
    requires Sealed(c) && Allowed(c, op)
    ensures Sealed(Next(c, op)) <==> !Orphans(c, op)
  {
    match op
    case SetState(config) => ConfiguredKeys(config);
    case SendPackage(pkg, t) =>
      if Taker(c, t).Some? {
        var k, c' := Taker(c, t).value, Next(c, op);
        assert c'[k].box == Add(c[k].box, pkg, t) && pkg in c'[k].box.transit;
      }
    case _ =>
  }

  // ---- allocation ----

  predicate Accepting(c: Convs, k: int, t: PackageType) {
    k in c && c[k].box.Initialized() && CanAccept(c[k].box, t)
  }

  function Acceptors(c: Convs, t: PackageType): set<int> {
    set k | k in c && Accepting(c, k, t)
  }

  /** The lowest-numbered conveyor whose box says that it can accept the package. */
  function LowestAcceptor(c: Convs, t: PackageType): Option<int> {
    if Acceptors(c, t) == {} then None else Some(Least(Acceptors(c, t)))
  }

  /**
   A package goes to the lowest-numbered conveyor whose box accepts it, and is
   refused if there is none, exactly when that box is not a full one of type NONE.
   */
  lemma TakerIsLowestAcceptorIff(c: Convs, t: PackageType)
    ensures Taker(c, t) == LowestAcceptor(c, t) <==>
      (LowestAcceptor(c, t).Some? ==>
         var b := c[LowestAcceptor(c, t).value].box; !(b.ptype == NONE && b.Full()))
  {
    assert forall k :: k in Takers(c, t) ==> k in Acceptors(c, t);
    if LowestAcceptor(c, t).Some? {
      var k := LowestAcceptor(c, t).value;
      AcceptIffAdded(c[k].box, t);
      assert k in Takers(c, t) ==> forall l :: l in Takers(c, t) ==> k <= l;
    } else {
      EmptyOrInhabited(Takers(c, t));
    }
  }

  /** With the box invariants it always is so. */
  lemma TakerIsLowestAcceptor(c: Convs, t: PackageType)
    requires WellFormed(c)
    ensures Taker(c, t) == LowestAcceptor(c, t)
  {
    TakerIsLowestAcceptorIff(c, t);
    if LowestAcceptor(c, t).Some? {
      assert BoxInv(c[LowestAcceptor(c, t).value].box);
    }
  }

  /** Once a box has a colour it keeps it until the next configuration. */
  lemma {:induction false} ColourIsKept(c: Convs, ops: seq<Op>, k: int)
    requires AllAllowed(c, ops)
    requires forall i :: 0 <= i < |ops| ==> !ops[i].SetState?
    requires k in c && Colour(c[k].box.ptype)
    ensures k in Run(c, ops) && Run(c, ops)[k].box.ptype == c[k].box.ptype
    ensures Run(c, ops)[k].box.id == c[k].box.id
    decreases |ops|
  {
    if ops != [] {
      var op := ops[0];
      assert Next(c, op)[k].box.ptype == c[k].box.ptype && Next(c, op)[k].box.id == c[k].box.id;
      ColourIsKept(Next(c, op), ops[1..], k);
    }
  }

  /**
   A completed clear leaves every other box alone exactly when some box has the
   id, or the input conveyor's box, which is used otherwise, holds none of the
   packages.
   */
  lemma ClearStaysInItsBoxIff(c: Convs, box: int, pkgs: set<int>)
    requires Allowed(c, ClearCompleted(box, pkgs))
    ensures (forall k :: k in c && k !in Holders(c, box) ==> Next(c, ClearCompleted(box, pkgs))[k] == c[k])
      <==> BoxKey(c, box).Some? || pkgs !! c[INPUT_CONVEYOR_ID].box.Contents()
  {
  }

  // ---- conservation ----

  predicate HeldBy(c: Convs, k: int, pkg: int) {
    k in c && pkg in c[k].box.Contents()
  }

  /** All packages in transit to, or stored in, some box. */
  function Held(c: Convs): set<int> {
    set k, p | k in c && p in c[k].box.Contents() :: p
  }

  lemma HeldMeans(c: Convs, p: int)
    ensures p in Held(c) <==> exists k :: HeldBy(c, k, p)
  {
    if p in Held(c) {
      var k :| k in c && p in c[k].box.Contents();
      assert HeldBy(c, k, p);
    }
    if k :| HeldBy(c, k, p) {
      assert p in Held(c);
    }
  }

  /** No package is in two boxes, or both in transit and stored. */
  ghost predicate Exclusive(c: Convs) {
    && (forall k :: k in c ==> c[k].box.transit !! c[k].box.stored)
    && (forall k, l, p :: HeldBy(c, k, p) && HeldBy(c, l, p) ==> k == l)
  }

  /** A package request that is accepted names a package that no box holds. */
  predicate Fresh(c: Convs, op: Op) {
    op.SendPackage? && Taker(c, op.ptype).Some? ==> op.pkg !in Held(c)
  }

  /** Packages that a step takes in. */
  function TakenIn(c: Convs, op: Op): set<int> {
    if op.SendPackage? && Taker(c, op.ptype).Some? then {op.pkg} else {}
  }

  /** Packages that a step lets go: removed, cleared, or dropped by a reconfiguration. */
  ghost function LetGo(c: Convs, op: Op): set<int>
    requires Allowed(c, op)
  {
    match op
    case SetState(_) => Held(c)
    case RemoveFrom(box, pkg) => if RemoveResultOf(c, box, pkg) == Removed then {pkg} else {}
    case ClearCompleted(box, pkgs) => pkgs * c[ClearKey(c, box)].box.Contents()
    case _ => {}
  }

  /** Changing one box's contents, bringing in no package that another box holds. */
  lemma ReplaceBox(c: Convs, k: int, b: Box)
    requires Exclusive(c) && k in c
    requires b.transit !! b.stored
    requires forall p :: p in b.Contents() && p !in c[k].box.Contents() ==> p !in Held(c)
    ensures Exclusive(WithBox(c, k, b))
    ensures Held(WithBox(c, k, b)) == (Held(c) - c[k].box.Contents()) + b.Contents()
  {
    var c' := WithBox(c, k, b);
    forall l, p
      ensures HeldBy(c', l, p) <==> if l == k then p in b.Contents() else HeldBy(c, l, p)
    {
    }
    forall l, p | l != k && HeldBy(c, l, p)
      ensures p !in b.Contents()
    {
      HeldMeans(c, p);
      assert p in c[k].box.Contents() ==> HeldBy(c, k, p);
    }
    forall p
      ensures p in Held(c') <==> p in (Held(c) - c[k].box.Contents()) + b.Contents()
    {
      HeldMeans(c, p);
      HeldMeans(c', p);
      assert p in b.Contents() ==> HeldBy(c', k, p);
      assert p in c[k].box.Contents() ==> HeldBy(c, k, p);
    }
  }

  lemma SameBoxes(c: Convs, c': Convs)
    requires Exclusive(c) && c.Keys == c'.Keys
    requires forall k :: k in c ==> c'[k].box.transit == c[k].box.transit && c'[k].box.stored == c[k].box.stored
    ensures Exclusive(c') && Held(c') == Held(c)
  {
    assert forall k, p :: HeldBy(c', k, p) <==> HeldBy(c, k, p);
    forall p
      ensures p in Held(c') <==> p in Held(c)
    {
      HeldMeans(c, p);
      HeldMeans(c', p);
    }
  }

  lemma EmptyTable(c: Convs)
    requires forall k :: k in c ==> c[k].box.transit == {} && c[k].box.stored == {}
    ensures Exclusive(c) && Held(c) == {}
  {
  }

  ghost predicate Balanced(c: Convs, c': Convs, taken: set<int>, gone: set<int>) {
    && Exclusive(c')
    && Held(c') == (Held(c) + taken) - gone
    && gone <= Held(c)
    && taken !! Held(c)
  }

  lemma BoxIsHeld(c: Convs, k: int)
    requires k in c
    ensures c[k].box.Contents() <= Held(c)
  {
    forall p | p in c[k].box.Contents()
      ensures p in Held(c)
    {
      assert HeldBy(c, k, p);
      HeldMeans(c, p);
    }
  }

  /** Adding one package that no box holds. */
  lemma GrowBalances(c: Convs, k: int, b: Box, pkg: int)
    requires Exclusive(c) && k in c && pkg !in Held(c)
    requires b.transit == c[k].box.transit + {pkg} && b.stored == c[k].box.stored
    ensures Balanced(c, WithBox(c, k, b), {pkg}, {})
  {
    BoxIsHeld(c, k);
    ReplaceBox(c, k, b);
  }

  lemma SendBalances(c: Convs, pkg: int, t: PackageType)
    requires Exclusive(c) && (Taker(c, t).Some? ==> pkg !in Held(c))
    ensures Balanced(c, Next(c, SendPackage(pkg, t)), TakenIn(c, SendPackage(pkg, t)), {})
  {
    if Taker(c, t).Some? {
      var k := Taker(c, t).value;
      GrowBalances(c, k, Add(c[k].box, pkg, t), pkg);
    }
  }

  /** Removing some contents of one box. */
  lemma ShrinkBalances(c: Convs, k: int, b: Box)
    requires Exclusive(c) && k in c
    requires b.transit <= c[k].box.transit && b.stored <= c[k].box.stored
    ensures Balanced(c, WithBox(c, k, b), {}, c[k].box.Contents() - b.Contents())
  {
    BoxIsHeld(c, k);
    ReplaceBox(c, k, b);
  }

  lemma ReceiveBalances(c: Convs, pkg: int, box: int)
    requires Exclusive(c)
    ensures Balanced(c, Next(c, PackageReceived(pkg, box)), {}, {})
  {
    if BoxAvailable(c, box) {
      var k := BoxKey(c, box).value;
      BoxIsHeld(c, k);
      assert Receive(c[k].box, pkg).Contents() == c[k].box.Contents();
      ReplaceBox(c, k, Receive(c[k].box, pkg));
    }
  }

  /** One step: packages held afterwards are those held before, plus taken in, minus let go. */
  lemma StepConserves(c: Convs, op: Op)
    requires Allowed(c, op) && Fresh(c, op) && Exclusive(c)
    ensures Balanced(c, Next(c, op), TakenIn(c, op), LetGo(c, op))
  {
    match op
    case SetState(config) =>
      ConfiguredKeys(config);
      EmptyTable(Configured(config));
    case AddBox(k, box, location, _) => SameBoxes(c, Next(c, op));
    case SendPackage(pkg, t) => SendBalances(c, pkg, t);
    case PackageReceived(pkg, box) => ReceiveBalances(c, pkg, box);
    case RemoveFrom(box, pkg) =>
      if RemoveResultOf(c, box, pkg) == Removed {
        var k := BoxKey(c, box).value;
        ShrinkBalances(c, k, Remove(c[k].box, pkg));
        assert c[k].box.Contents() - Remove(c[k].box, pkg).Contents() == {pkg};
      }
    case ClearCompleted(box, pkgs) =>
      var k := ClearKey(c, box);
      ShrinkBalances(c, k, Clear(c[k].box, pkgs));
      assert c[k].box.Contents() - Clear(c[k].box, pkgs).Contents() == pkgs * c[k].box.Contents();
    case _ =>
  }

  /** For an accepted package, conservation holds exactly when no box held it before. */
  lemma AcceptedConservesIff(c: Convs, pkg: int, t: PackageType)
    requires Exclusive(c) && Taker(c, t).Some?
    ensures multiset(Held(Next(c, SendPackage(pkg, t)))) == multiset(Held(c)) + multiset{pkg} <==> pkg !in Held(c)
  {
    if pkg in Held(c) {
      assert multiset(Held(Next(c, SendPackage(pkg, t))))[pkg] <= 1;
    } else {
      SendBalances(c, pkg, t);
    }
  }

  ghost predicate AllFresh(c: Convs, ops: seq<Op>)
    requires AllAllowed(c, ops)
    decreases |ops|
  {
    ops != [] ==> Fresh(c, ops[0]) && AllFresh(Next(c, ops[0]), ops[1..])
  }

  ghost function AllTakenIn(c: Convs, ops: seq<Op>): multiset<int>
    requires AllAllowed(c, ops)
    decreases |ops|
  {
    if ops == [] then multiset{}
    else multiset(TakenIn(c, ops[0])) + AllTakenIn(Next(c, ops[0]), ops[1..])
  }

  ghost function AllLetGo(c: Convs, ops: seq<Op>): multiset<int>
    requires AllAllowed(c, ops)
    decreases |ops|
  {
    if ops == [] then multiset{}
    else multiset(LetGo(c, ops[0])) + AllLetGo(Next(c, ops[0]), ops[1..])
  }

  lemma RunTakes(c: Convs, op: Op, ops: seq<Op>)
    requires Allowed(c, op) && AllAllowed(Next(c, op), ops)
    ensures AllAllowed(c, [op] + ops)
    ensures Run(c, [op] + ops) == Run(Next(c, op), ops)
    ensures RunOutputs(c, [op] + ops) == Outputs(c, op) + RunOutputs(Next(c, op), ops)
    ensures AllTakenIn(c, [op] + ops) == multiset(TakenIn(c, op)) + AllTakenIn(Next(c, op), ops)
    ensures AllLetGo(c, [op] + ops) == multiset(LetGo(c, op)) + AllLetGo(Next(c, op), ops)
  {
    assert ([op] + ops)[1..] == ops;
  }

  lemma CountsBalance(before: set<int>, after: set<int>, taken: set<int>, gone: set<int>)
    requires after == (before + taken) - gone && gone <= before && taken !! before
    ensures multiset(after) + multiset(gone) == multiset(before) + multiset(taken)
  {
  }

  lemma SumBalance(h0: multiset<int>, h1: multiset<int>, h2: multiset<int>,
                   t0: multiset<int>, t1: multiset<int>, g0: multiset<int>, g1: multiset<int>)
    requires h1 + g0 == h0 + t0 && h2 + g1 == h1 + t1
    ensures h2 + (g0 + g1) == h0 + (t0 + t1)
  {
    assert h2 + (g0 + g1) == (h2 + g1) + g0;
    assert h0 + (t0 + t1) == (h0 + t0) + t1;
  }

  /** Over a whole run no package is lost or duplicated: held + let go = held at the start + taken in. */
  lemma {:induction false} PackagesConserved(c: Convs, ops: seq<Op>)
    requires Exclusive(c) && AllAllowed(c, ops) && AllFresh(c, ops)
    ensures Exclusive(Run(c, ops))
    ensures multiset(Held(Run(c, ops))) + AllLetGo(c, ops) == multiset(Held(c)) + AllTakenIn(c, ops)
    decreases |ops|
  {
    if ops != [] {
      var op, rest := ops[0], ops[1..];
      var c' := Next(c, op);
      StepConserves(c, op);
      CountsBalance(Held(c), Held(c'), TakenIn(c, op), LetGo(c, op));
      PackagesConserved(c', rest);
      SumBalance(multiset(Held(c)), multiset(Held(c')), multiset(Held(Run(c', rest))),
                 multiset(TakenIn(c, op)), AllTakenIn(c', rest), multiset(LetGo(c, op)), AllLetGo(c', rest));
    }
  }

  /** A step after which the packages held, with those let go, are those held before and the one taken in. */
  ghost predicate Conserves(c: Convs, op: Op)
    requires Allowed(c, op)
  {
    multiset(Held(Next(c, op))) + multiset(LetGo(c, op)) == multiset(Held(c)) + multiset(TakenIn(c, op))
  }

  ghost predicate AllConserve(c: Convs, ops: seq<Op>)
    requires AllAllowed(c, ops)
    decreases |ops|
  {
    ops != [] ==> Conserves(c, ops[0]) && AllConserve(Next(c, ops[0]), ops[1..])
  }

  lemma StepConservesIff(c: Convs, op: Op)
    requires Allowed(c, op) && Exclusive(c)
    ensures Conserves(c, op) <==> Fresh(c, op)
  {
    if Fresh(c, op) {
      StepConserves(c, op);
      CountsBalance(Held(c), Held(Next(c, op)), TakenIn(c, op), LetGo(c, op));
    } else {
      AcceptedConservesIff(c, op.pkg, op.ptype);
      assert TakenIn(c, op) == {op.pkg} && LetGo(c, op) == {};
      assert multiset(TakenIn(c, op)) == multiset{op.pkg};
    }
  }

  /** Every step of a run conserves packages exactly when no accepted request names a package that some box holds. */
  lemma {:induction false} AllConserveIffFresh(c: Convs, ops: seq<Op>)
    requires Exclusive(c) && AllAllowed(c, ops)
    ensures AllConserve(c, ops) <==> AllFresh(c, ops)
    decreases |ops|
  {
    if ops != [] {
      StepConservesIff(c, ops[0]);
      if Fresh(c, ops[0]) {
        StepConserves(c, ops[0]);
        AllConserveIffFresh(Next(c, ops[0]), ops[1..]);
      }
    }
  }

  // ---- reconfiguration ----

  lemma {:induction false} ConnectCommandsConnect(id: int, seen: set<int>, listed: seq<int>)
    ensures forall i :: 0 <= i < |ConnectCommands(id, seen, listed)| ==> ConnectCommands(id, seen, listed)[i].Connect?
  {
    if listed != [] {
      ConnectCommandsConnect(id, seen, listed[..|listed| - 1]);
    }
  }

  lemma {:induction false} ConfigureCommandsConnect(config: seq<Listing>)
    ensures forall i :: 0 <= i < |ConfigureCommands(config)| ==> ConfigureCommands(config)[i].Connect?
  {
    if config != [] {
      var n := |config| - 1;
      ConfigureCommandsConnect(config[..n]);
      ConnectCommandsConnect(config[n].id, Configured(config[..n]).Keys, config[n].listed);
    }
  }

  /** `cmds` disconnects each conveyor in `keys` exactly once, in ascending order, and does nothing else. */
  ghost predicate DisconnectsAscending(cmds: seq<Command>, keys: set<int>) {
    && |cmds| == |keys|
    && (forall i :: 0 <= i < |cmds| ==> cmds[i].Disconnect? && cmds[i].conveyor in keys)
    && (forall i, j :: 0 <= i < j < |cmds| ==> cmds[i].conveyor < cmds[j].conveyor)
  }

  lemma {:induction false} DisconnectsEachOnce(keys: set<int>)
    ensures DisconnectsAscending(Disconnects(keys), keys)
    decreases |keys|
  {
    if keys != {} {
      var least := Least(keys);
      var rest := keys - {least};
      DisconnectsEachOnce(rest);
      var cmds, all := Disconnects(rest), Disconnects(keys);
      assert all == [Disconnect(least)] + cmds;
      forall i | 0 <= i < |all|
        ensures all[i].Disconnect? && all[i].conveyor in keys && (i > 0 ==> least < all[i].conveyor)
      {
        if i > 0 {
          assert all[i] == cmds[i - 1];
        }
      }
    }
  }

  /** ... and misses none of them. */
  lemma {:induction false} DisconnectsMissNone(keys: set<int>, k: int)
    requires k in keys
    ensures Disconnect(k) in Disconnects(keys)
    decreases |keys|
  {
    var least := Least(keys);
    if k == least {
      assert Disconnects(keys)[0] == Disconnect(k);
    } else {
      DisconnectsMissNone(keys - {least}, k);
      assert Disconnects(keys)[1..] == Disconnects(keys - {least});
    }
  }

  /** A reconfiguration's messages: every disconnect comes before every connect. */
  lemma DisconnectsComeFirst(c: Convs, config: seq<Listing>)
    ensures var out := Outputs(c, SetState(config));
      && |out| >= |c|
      && (forall i :: 0 <= i < |c| ==> out[i].ToAnt? && out[i].cmd.Disconnect?)
      && (forall i :: |c| <= i < |out| ==> out[i].ToAnt? && out[i].cmd.Connect?)
  {
    DisconnectsEachOnce(c.Keys);
    ConfigureCommandsConnect(config);
    assert |c.Keys| == |c|;
  }

  // ---- runs in two parts ----

  lemma {:induction false} RunSplit(c: Convs, a: seq<Op>, b: seq<Op>)
    requires AllAllowed(c, a) && AllAllowed(Run(c, a), b)
    ensures AllAllowed(c, a + b)
    ensures Run(c, a + b) == Run(Run(c, a), b)
    decreases |a|
  {
    if a == [] {
      assert a + b == b;
    } else {
      RunSplit(Next(c, a[0]), a[1..], b);
      assert (a + b)[0] == a[0] && (a + b)[1..] == a[1..] + b;
    }
  }
}
