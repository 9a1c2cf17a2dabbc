/** Runs from start-up, with one conveyor or two, in which the accounts of the conveyor system come apart. */
module SystemExamples {
  import opened CentralTypes
  import opened Boxes
  import opened Conveyors
  import opened Graphs
  import opened Messages
  import opened Systems
  import opened SystemProofs
  import opened Provenance

  // ---- a table with one conveyor ----

  const BOX_AT_0 := [Slot(BOX_CONVEYOR_ID, SLAVE), EMPTY_SLOT, EMPTY_SLOT, EMPTY_SLOT]
  const BOXES_AT_0_AND_1 := [Slot(BOX_CONVEYOR_ID, SLAVE), Slot(BOX_CONVEYOR_ID, SLAVE), EMPTY_SLOT, EMPTY_SLOT]

  /** The table with conveyor 1 alone. */
  function One(slots: seq<Slot>, b: Box): Convs {
    map[1 := Conv(1, slots, b)]
  }

  lemma HeldInOne(slots: seq<Slot>, b: Box)
    ensures Held(One(slots, b)) == b.Contents()
  {
    var c := One(slots, b);
    assert forall p :: p in Held(c) ==> p in c[1].box.Contents();
    BoxIsHeld(c, 1);
  }

  lemma OneTaker(slots: seq<Slot>, b: Box, t: PackageType)
    ensures Taker(One(slots, b), t) == if CanAccept(b, t) && AddSucceeds(b, t) then Some(1) else None
  {
    var takers := Takers(One(slots, b), t);
    assert takers == if CanAccept(b, t) && AddSucceeds(b, t) then {1} else {};
  }

  lemma OneKey(slots: seq<Slot>, b: Box, box: int)
    ensures BoxKey(One(slots, b), box) == if b.Initialized() && b.id == box then Some(1) else None
  {
    var holders := Holders(One(slots, b), box);
    assert holders == if b.Initialized() && b.id == box then {1} else {};
  }

  /** With no conveyor connected, the route to conveyor 1 is conveyor 1. */
  lemma OneAllows(slots: seq<Slot>, b: Box, box: int, location: nat)
    requires location < |slots| && forall i :: 0 <= i < |slots| ==> slots[i].target < VALID_CONVEYOR_ID_MIN
    ensures Allowed(One(slots, b), AddBox(1, box, location, [1]))
  {
    var g := Net(One(slots, b));
    assert g[1] == {};
    assert IsPath(g, [1], 1, 1);
  }

  // ---- the common start ----

  /** Conveyor 1 is configured without connections and gets box 5. */
  const SETUP := [SetState([Listing(1, [])]), AddBox(1, 5, 0, [1])]

  const CLEAN_BOX := Box(5, 0, NONE, {}, {})

  const SETUP_OUTPUTS := [ToAnt(ConnectBox(1, 5, 0)), ToAnt(RoutingPlan(1, 5, 1)), ToWeb(AddBoxReply(5, 1, Accepted))]

  lemma ConfigureOne()
    ensures Next(map[], SETUP[0]) == One(EMPTY_SLOTS, NEW_BOX)
    ensures Outputs(map[], SETUP[0]) == [] && LetGo(map[], SETUP[0]) == {}
  {
    var config := [Listing(1, [])];
    assert config[..0] == [];
    assert Configured(config) == One(EMPTY_SLOTS, NEW_BOX);
    assert Disconnects({}) + ConfigureCommands(config) == [];
    assert Held(map[]) == {};
  }

  /** A box without an owner takes the id and keeps what it holds. */
  lemma AddBoxToOne(slots: seq<Slot>, b: Box, box: int, location: nat)
    requires location < |slots| && forall i :: 0 <= i < |slots| ==> slots[i].target < VALID_CONVEYOR_ID_MIN
    requires !b.Initialized() && slots[location].target == EMPTY_CONVEYOR_ID
    ensures var c, add := One(slots, b), AddBox(1, box, location, [1]);
      && Allowed(c, add)
      && Next(c, add) == One(slots[location := Slot(BOX_CONVEYOR_ID, SLAVE)], Initialize(b, box, location))
      && Outputs(c, add) ==
           [ToAnt(ConnectBox(1, box, location)), ToAnt(RoutingPlan(1, box, 1)), ToWeb(AddBoxReply(box, 1, Accepted))]
  {
    OneAllows(slots, b, box, location);
    assert AntAll(Plan([1], box)) == [ToAnt(RoutingPlan(1, box, 1))];
  }

  lemma BareRun(ops: seq<Op>)
    requires AllAllowed(One(BOX_AT_0, CLEAN_BOX), ops)
    ensures var c, all := One(EMPTY_SLOTS, NEW_BOX), [AddBox(1, 5, 0, [1])] + ops;
      && AllAllowed(c, all) && Run(c, all) == Run(One(BOX_AT_0, CLEAN_BOX), ops)
      && RunOutputs(c, all) == SETUP_OUTPUTS + RunOutputs(One(BOX_AT_0, CLEAN_BOX), ops)
      && AllTakenIn(c, all) == AllTakenIn(One(BOX_AT_0, CLEAN_BOX), ops)
      && AllLetGo(c, all) == AllLetGo(One(BOX_AT_0, CLEAN_BOX), ops)
  {
    AddBoxToOne(EMPTY_SLOTS, NEW_BOX, 5, 0);
    assert EMPTY_SLOTS[0 := Slot(BOX_CONVEYOR_ID, SLAVE)] == BOX_AT_0;
    RunTakes(One(EMPTY_SLOTS, NEW_BOX), AddBox(1, 5, 0, [1]), ops);
  }

  lemma SetupRun(ops: seq<Op>)
    requires AllAllowed(One(BOX_AT_0, CLEAN_BOX), ops)
    ensures AllAllowed(map[], SETUP + ops)
    ensures Run(map[], SETUP + ops) == Run(One(BOX_AT_0, CLEAN_BOX), ops)
    ensures RunOutputs(map[], SETUP + ops) == SETUP_OUTPUTS + RunOutputs(One(BOX_AT_0, CLEAN_BOX), ops)
    ensures AllTakenIn(map[], SETUP + ops) == AllTakenIn(One(BOX_AT_0, CLEAN_BOX), ops)
    ensures AllLetGo(map[], SETUP + ops) == AllLetGo(One(BOX_AT_0, CLEAN_BOX), ops)
  {
    var all := [AddBox(1, 5, 0, [1])] + ops;
    BareRun(ops);
    ConfigureOne();
    RunTakes(map[], SETUP[0], all);
    SetupThen(ops);
  }

  lemma SetupThen(ops: seq<Op>)
    ensures SETUP + ops == [SETUP[0]] + ([AddBox(1, 5, 0, [1])] + ops)
  {
  }

  lemma SendToOne(slots: seq<Slot>, b: Box, pkg: int, t: PackageType)
    requires CanAccept(b, t) && AddSucceeds(b, t)
    ensures var c, send := One(slots, b), SendPackage(pkg, t);
      && Next(c, send) == One(slots, Add(b, pkg, t)) && TakenIn(c, send) == {pkg} && LetGo(c, send) == {}
      && Outputs(c, send) == [ToAnt(AddPackage(b.id, pkg, t)), ToWeb(AddPackageReply(pkg, Some(b.id)))]
  {
    OneTaker(slots, b, t);
  }

  lemma ClearInOne(slots: seq<Slot>, b: Box, box: int, pkgs: set<int>)
    ensures var c, clear := One(slots, b), ClearCompleted(box, pkgs);
      Allowed(c, clear) && Next(c, clear) == One(slots, Clear(b, pkgs))
  {
    OneKey(slots, b, box);
  }

  lemma ReceiveInOne(slots: seq<Slot>, b: Box, pkg: int)
    requires b.Initialized() && b.id != INVALID_BOX_ID
    ensures var c, arrive := One(slots, b), PackageReceived(pkg, b.id);
      Next(c, arrive) == One(slots, Receive(b, pkg)) && Outputs(c, arrive) == [ToWeb(PackageReceivedReply(pkg, b.id))]
  {
    OneKey(slots, b, b.id);
  }

  lemma RemoveInOne(slots: seq<Slot>, b: Box, pkg: int)
    requires b.Initialized() && b.id != INVALID_BOX_ID && pkg in b.stored
    ensures Outputs(One(slots, b), RemoveFrom(b.id, pkg)) ==
      [ToAnt(RemovePackage(1, pkg, b.id)), ToWeb(RemovePackageReply(pkg, b.id, Removed))]
  {
    OneKey(slots, b, b.id);
  }

  // ---- a package id that is in use ----

  const RED_BOX := Box(5, 0, RED, {}, {1})

  lemma OneSend()
    ensures Next(One(BOX_AT_0, CLEAN_BOX), SendPackage(1, RED)) == One(BOX_AT_0, RED_BOX)
    ensures TakenIn(One(BOX_AT_0, CLEAN_BOX), SendPackage(1, RED)) == {1}
    ensures LetGo(One(BOX_AT_0, CLEAN_BOX), SendPackage(1, RED)) == {}
  {
    SendToOne(BOX_AT_0, CLEAN_BOX, 1, RED);
    assert Add(CLEAN_BOX, 1, RED) == RED_BOX;
  }

  lemma SecondSend()
    ensures var c, again := One(BOX_AT_0, RED_BOX), [SendPackage(1, RED)];
      && AllAllowed(c, again) && Run(c, again) == c
      && AllTakenIn(c, again) == multiset{1} && AllLetGo(c, again) == multiset{}
  {
    SendToOne(BOX_AT_0, RED_BOX, 1, RED);
    assert Add(RED_BOX, 1, RED) == RED_BOX;
    RunTakes(One(BOX_AT_0, RED_BOX), SendPackage(1, RED), []);
  }

  const SEND_TWICE := SETUP + ([SendPackage(1, RED)] + [SendPackage(1, RED)])

  lemma BothSends()
    ensures var c, twice := One(BOX_AT_0, CLEAN_BOX), [SendPackage(1, RED)] + [SendPackage(1, RED)];
      && AllAllowed(c, twice) && Run(c, twice) == One(BOX_AT_0, RED_BOX)
      && AllTakenIn(c, twice) == multiset{1, 1} && AllLetGo(c, twice) == multiset{}
  {
    OneSend();
    SecondSend();
    RunTakes(One(BOX_AT_0, CLEAN_BOX), SendPackage(1, RED), [SendPackage(1, RED)]);
  }

  /** Package 1 is requested twice: two are taken in, none let go, and one is held. */
  lemma ReacceptedExample()
    ensures AllAllowed(map[], SEND_TWICE)
    ensures AllTakenIn(map[], SEND_TWICE) == multiset{1, 1} && AllLetGo(map[], SEND_TWICE) == multiset{}
    ensures Held(Run(map[], SEND_TWICE)) == {1}
  {
    BothSends();
    SetupRun([SendPackage(1, RED)] + [SendPackage(1, RED)]);
    HeldInOne(BOX_AT_0, RED_BOX);
    assert RED_BOX.Contents() == {1};
  }

  // ---- a clear for a box that nobody has ----

  const SEND_ONCE := SETUP + [SendPackage(1, RED)]
  const CLEAR_UNKNOWN := SETUP + ([SendPackage(1, RED)] + [ClearCompleted(9, {1})])

  lemma OneSendRun()
    ensures AllAllowed(map[], SEND_ONCE)
    ensures Run(map[], SEND_ONCE) == One(BOX_AT_0, RED_BOX)
  {
    OneSend();
    RunTakes(One(BOX_AT_0, CLEAN_BOX), SendPackage(1, RED), []);
    SetupRun([SendPackage(1, RED)]);
  }

  lemma ClearUnknown()
    ensures var c, clear := One(BOX_AT_0, RED_BOX), [ClearCompleted(9, {1})];
      AllAllowed(c, clear) && Run(c, clear) == One(BOX_AT_0, RED_BOX.(transit := {}))
  {
    ClearInOne(BOX_AT_0, RED_BOX, 9, {1});
    assert Clear(RED_BOX, {1}) == RED_BOX.(transit := {});
    RunTakes(One(BOX_AT_0, RED_BOX), ClearCompleted(9, {1}), []);
  }

  /** Package 1 is on its way to box 5, no box has id 9, and the completed clear of box 9 takes the package out. */
  lemma ClearUnknownExample()
    ensures AllAllowed(map[], SEND_ONCE) && AllAllowed(map[], CLEAR_UNKNOWN)
    ensures Run(map[], SEND_ONCE) == One(BOX_AT_0, RED_BOX)
    ensures BoxKey(One(BOX_AT_0, RED_BOX), 9) == None
    ensures Run(map[], CLEAR_UNKNOWN) == One(BOX_AT_0, RED_BOX.(transit := {}))
  {
    OneSendRun();
    OneKey(BOX_AT_0, RED_BOX, 9);
    OneSend();
    ClearUnknown();
    RunTakes(One(BOX_AT_0, CLEAN_BOX), SendPackage(1, RED), [ClearCompleted(9, {1})]);
    SetupRun([SendPackage(1, RED)] + [ClearCompleted(9, {1})]);
  }

  // ---- a package of type NONE ----

  const SEND_NONE := SETUP + [SendPackage(1, NONE)]

  /** One package of type NONE leaves a box that counts as empty although it holds the package. */
  lemma UncolouredExample()
    ensures AllAllowed(map[], SEND_NONE)
    ensures Run(map[], SEND_NONE) == One(BOX_AT_0, CLEAN_BOX.(transit := {1}))
    ensures WellFormed(One(BOX_AT_0, CLEAN_BOX)) && !WellFormed(Run(map[], SEND_NONE))
  {
    SendToOne(BOX_AT_0, CLEAN_BOX, 1, NONE);
    assert Add(CLEAN_BOX, 1, NONE) == CLEAN_BOX.(transit := {1});
    RunTakes(One(BOX_AT_0, CLEAN_BOX), SendPackage(1, NONE), []);
    SetupRun([SendPackage(1, NONE)]);
    BrokenBox(One(BOX_AT_0, CLEAN_BOX.(transit := {1})));
  }

  lemma BrokenBox(c: Convs)
    requires 1 in c && c[1].box == CLEAN_BOX.(transit := {1})
    ensures !WellFormed(c)
  {
    assert 1 in c[1].box.transit;
  }

  const FOUR_NONE :=
    [SendPackage(1, NONE)] + ([SendPackage(2, NONE)] + ([SendPackage(3, NONE)] + [SendPackage(4, NONE)]))

  const FULL_BOX := CLEAN_BOX.(transit := {1, 2, 3, 4})

  lemma SendNone(transit: set<int>, pkg: int, ops: seq<Op>)
    requires |transit| < DESTINATION_BOX_SIZE
    requires AllAllowed(One(BOX_AT_0, CLEAN_BOX.(transit := transit + {pkg})), ops)
    ensures var c, all := One(BOX_AT_0, CLEAN_BOX.(transit := transit)), [SendPackage(pkg, NONE)] + ops;
      AllAllowed(c, all) && Run(c, all) == Run(One(BOX_AT_0, CLEAN_BOX.(transit := transit + {pkg})), ops)
  {
    var b := CLEAN_BOX.(transit := transit);
    SendToOne(BOX_AT_0, b, pkg, NONE);
    RunTakes(One(BOX_AT_0, b), SendPackage(pkg, NONE), ops);
  }

  lemma FourNone()
    ensures AllAllowed(map[], SETUP + FOUR_NONE)
    ensures Run(map[], SETUP + FOUR_NONE) == One(BOX_AT_0, FULL_BOX)
  {
    assert {1, 2, 3} + {4} == {1, 2, 3, 4} && {1, 2} + {3} == {1, 2, 3} && {1} + {2} == {1, 2} && {} + {1} == {1};
    assert [SendPackage(4, NONE)] + [] == [SendPackage(4, NONE)];
    SendNone({1, 2, 3}, 4, []);
    SendNone({1, 2}, 3, [SendPackage(4, NONE)]);
    SendNone({1}, 2, [SendPackage(3, NONE)] + [SendPackage(4, NONE)]);
    SendNone({}, 1, [SendPackage(2, NONE)] + ([SendPackage(3, NONE)] + [SendPackage(4, NONE)]));
    SetupRun(FOUR_NONE);
  }

  /** After four packages of type NONE, the box says that it can accept a red package, which is then refused. */
  lemma FullBoxExample()
    ensures AllAllowed(map[], SETUP + FOUR_NONE)
    ensures var c := Run(map[], SETUP + FOUR_NONE);
      LowestAcceptor(c, RED) == Some(1) && Taker(c, RED) == None
  {
    FourNone();
    var c := One(BOX_AT_0, FULL_BOX);
    assert |FULL_BOX.transit| == 4 by {
      assert FULL_BOX.transit == {1, 2, 3} + {4};
    }
    OneTaker(BOX_AT_0, FULL_BOX, RED);
    assert Acceptors(c, RED) == {1};
  }

  // ---- a package of type INVALID ----

  const ORPHANED_BOX := Box(5, 0, INVALID, {}, {7})
  const HEIR := Box(6, 1, NONE, {}, {7})

  const ARRIVE_AND_LEAVE := [PackageReceived(7, 6)] + [RemoveFrom(6, 7)]
  const INHERIT := SETUP + ([SendPackage(7, INVALID)] + ([AddBox(1, 6, 1, [1])] + ARRIVE_AND_LEAVE))

  lemma HeirRun()
    ensures var c := One(BOXES_AT_0_AND_1, HEIR);
      && AllAllowed(c, ARRIVE_AND_LEAVE)
      && RunOutputs(c, ARRIVE_AND_LEAVE) ==
           [ToWeb(PackageReceivedReply(7, 6)), ToAnt(RemovePackage(1, 7, 6)), ToWeb(RemovePackageReply(7, 6, Removed))]
  {
    var after := HEIR.(transit := {}, stored := {7});
    ReceiveInOne(BOXES_AT_0_AND_1, HEIR, 7);
    assert Receive(HEIR, 7) == after;
    RemoveInOne(BOXES_AT_0_AND_1, after, 7);
    RunTakes(One(BOXES_AT_0_AND_1, after), RemoveFrom(6, 7), []);
    RunTakes(One(BOXES_AT_0_AND_1, HEIR), PackageReceived(7, 6), [RemoveFrom(6, 7)]);
  }

  const SEND_OUTPUTS := [ToAnt(AddPackage(5, 7, INVALID)), ToWeb(AddPackageReply(7, Some(5)))]
  const HEIR_OUTPUTS := [
    ToAnt(ConnectBox(1, 6, 1)), ToAnt(RoutingPlan(1, 6, 1)), ToWeb(AddBoxReply(6, 1, Accepted)),
    ToWeb(PackageReceivedReply(7, 6)), ToAnt(RemovePackage(1, 7, 6)), ToWeb(RemovePackageReply(7, 6, Removed))]

  lemma OrphanRun()
    ensures var c, ops := One(BOX_AT_0, ORPHANED_BOX), [AddBox(1, 6, 1, [1])] + ARRIVE_AND_LEAVE;
      AllAllowed(c, ops) && RunOutputs(c, ops) == HEIR_OUTPUTS
  {
    AddBoxToOne(BOX_AT_0, ORPHANED_BOX, 6, 1);
    assert BOX_AT_0[1 := Slot(BOX_CONVEYOR_ID, SLAVE)] == BOXES_AT_0_AND_1;
    assert Initialize(ORPHANED_BOX, 6, 1) == HEIR;
    HeirRun();
    RunTakes(One(BOX_AT_0, ORPHANED_BOX), AddBox(1, 6, 1, [1]), ARRIVE_AND_LEAVE);
  }

  lemma InheritOutputs()
    ensures AllAllowed(map[], INHERIT)
    ensures RunOutputs(map[], INHERIT) == SETUP_OUTPUTS + (SEND_OUTPUTS + HEIR_OUTPUTS)
  {
    var rest := [AddBox(1, 6, 1, [1])] + ARRIVE_AND_LEAVE;
    SendToOne(BOX_AT_0, CLEAN_BOX, 7, INVALID);
    assert Add(CLEAN_BOX, 7, INVALID) == ORPHANED_BOX;
    OrphanRun();
    RunTakes(One(BOX_AT_0, CLEAN_BOX), SendPackage(7, INVALID), rest);
    SetupRun([SendPackage(7, INVALID)] + rest);
  }

  lemma NeverSentToHeir(out: seq<Output>)
    requires out == SETUP_OUTPUTS + (SEND_OUTPUTS + HEIR_OUTPUTS)
    ensures |out| == 11 && out[9] == ToAnt(RemovePackage(1, 7, 6)) && !ArrivedIn(out, 9, 6, 7)
  {
    assert forall i, t :: 0 <= i < |out| ==> out[i] != ToAnt(AddPackage(6, 7, t));
  }

  /**
   A package of type INVALID, taken in by box 5, makes the box count as
   uninitialised; the next box to be added inherits it, and it is reported and
   removed there although it was never sent to it.
   */
  lemma InheritedPackageExample()
    ensures AllAllowed(map[], INHERIT)
    ensures var out := RunOutputs(map[], INHERIT);
      |out| == 11 && out[9] == ToAnt(RemovePackage(1, 7, 6)) && !ArrivedIn(out, 9, 6, 7)
  {
    InheritOutputs();
    NeverSentToHeir(RunOutputs(map[], INHERIT));
  }

  // ---- an arrival that counts twice ----

  const REPORT := PackageReceived(7, 5)
  const SAME_ID := AddBox(1, 5, 1, [1])
  const SECOND_BOX := Box(5, 1, NONE, {}, {7})

  lemma OrphanThenBox(ops: seq<Op>)
    requires AllAllowed(One(BOXES_AT_0_AND_1, SECOND_BOX), ops)
    ensures var c, all := One(BOX_AT_0, ORPHANED_BOX), [SAME_ID] + ops;
      AllAllowed(c, all) && Run(c, all) == Run(One(BOXES_AT_0_AND_1, SECOND_BOX), ops)
  {
    AddBoxToOne(BOX_AT_0, ORPHANED_BOX, 5, 1);
    assert BOX_AT_0[1 := Slot(BOX_CONVEYOR_ID, SLAVE)] == BOXES_AT_0_AND_1;
    assert Initialize(ORPHANED_BOX, 5, 1) == SECOND_BOX;
    RunTakes(One(BOX_AT_0, ORPHANED_BOX), SAME_ID, ops);
  }

  lemma ReportBeforeBox(ops: seq<Op>)
    requires AllAllowed(One(BOXES_AT_0_AND_1, SECOND_BOX), ops)
    ensures var all := SETUP + ([SendPackage(7, INVALID)] + ([REPORT] + ([SAME_ID] + ops)));
      AllAllowed(map[], all) && Run(map[], all) == Run(One(BOXES_AT_0_AND_1, SECOND_BOX), ops)
  {
    var tail := [SAME_ID] + ops;
    OrphanThenBox(ops);
    OneKey(BOX_AT_0, ORPHANED_BOX, 5);
    RunTakes(One(BOX_AT_0, ORPHANED_BOX), REPORT, tail);
    InvalidThen([REPORT] + tail);
  }

  lemma InvalidThen(ops: seq<Op>)
    requires AllAllowed(One(BOX_AT_0, ORPHANED_BOX), ops)
    ensures var all := SETUP + ([SendPackage(7, INVALID)] + ops);
      AllAllowed(map[], all) && Run(map[], all) == Run(One(BOX_AT_0, ORPHANED_BOX), ops)
  {
    SendToOne(BOX_AT_0, CLEAN_BOX, 7, INVALID);
    assert Add(CLEAN_BOX, 7, INVALID) == ORPHANED_BOX;
    RunTakes(One(BOX_AT_0, CLEAN_BOX), SendPackage(7, INVALID), ops);
    SetupRun([SendPackage(7, INVALID)] + ops);
  }

  /**
   Package 7, of type INVALID, is reported as arrived in box 5 while its box
   counts as uninitialised; the box is added again, and the repeated report
   stores the package, although it was not requested in between.
   */
  lemma RepeatedArrivalExample()
    ensures var once := SETUP + ([SendPackage(7, INVALID)] + ([REPORT] + ([SAME_ID] + [])));
      var twice := SETUP + ([SendPackage(7, INVALID)] + ([REPORT] + ([SAME_ID] + [REPORT])));
      && AllAllowed(map[], once) && Run(map[], once) == One(BOXES_AT_0_AND_1, SECOND_BOX)
      && AllAllowed(map[], twice)
      && Run(map[], twice) == One(BOXES_AT_0_AND_1, SECOND_BOX.(transit := {}, stored := {7}))
  {
    var c := One(BOXES_AT_0_AND_1, SECOND_BOX);
    ReceiveInOne(BOXES_AT_0_AND_1, SECOND_BOX, 7);
    assert Receive(SECOND_BOX, 7) == SECOND_BOX.(transit := {}, stored := {7});
    RunTakes(c, REPORT, []);
    assert [REPORT] + [] == [REPORT];
    ReportBeforeBox([]);
    ReportBeforeBox([REPORT]);
  }

  // ---- two boxes with the same id ----

  const LINK := [Slot(2, MASTER), EMPTY_SLOT, EMPTY_SLOT, EMPTY_SLOT]
  const LINK_AND_BOX := [Slot(2, MASTER), Slot(BOX_CONVEYOR_ID, SLAVE), EMPTY_SLOT, EMPTY_SLOT]
  const BOX_AT_1 := [EMPTY_SLOT, Slot(BOX_CONVEYOR_ID, SLAVE), EMPTY_SLOT, EMPTY_SLOT]

  /** Conveyor 1 leads to conveyor 2. */
  function Two(slots1: seq<Slot>, b1: Box, slots2: seq<Slot>, b2: Box): Convs {
    map[1 := Conv(1, slots1, b1), 2 := Conv(2, slots2, b2)]
  }

  lemma TwoKey(slots1: seq<Slot>, b1: Box, slots2: seq<Slot>, b2: Box, box: int)
    requires b1.Initialized() && b1.id == box
    ensures BoxKey(Two(slots1, b1, slots2, b2), box) == Some(1)
  {
    var c := Two(slots1, b1, slots2, b2);
    assert 1 in Holders(c, box) && forall k :: k in Holders(c, box) ==> k == 1 || k == 2;
  }

  lemma TwoNet(slots1: seq<Slot>, b1: Box, slots2: seq<Slot>, b2: Box)
    requires (slots1 == LINK || slots1 == LINK_AND_BOX) && slots2 == EMPTY_SLOTS
    ensures var g := Net(Two(slots1, b1, slots2, b2));
      && g == map[1 := {2}, 2 := {}]
      && Closed(g) && IsShortest(g, [1], 1, 1) && IsShortest(g, [1, 2], 1, 2)
  {
    var g := Net(Two(slots1, b1, slots2, b2));
    assert slots1[0].target == 2;
    assert g[1] == {2} && g[2] == {};
    assert Edge(g, 1, 2) && IsPath(g, [1], 1, 1) && IsPath(g, [1, 2], 1, 2);
    forall q | IsPath(g, q, 1, 2)
      ensures 2 <= |q|
    {
    }
  }

  const TWO_CONVEYORS := SetState([Listing(1, [2]), Listing(2, [])])

  lemma ConnectTo2()
    ensures Connected({}, [2]) == LINK
  {
    assert [2][..0] == [];
    assert Connected({}, []) == EMPTY_SLOTS;
    assert Connected({}, [2]) == EMPTY_SLOTS[0 := Slot(2, MASTER)];
  }

  lemma ConfigureTwo()
    ensures Next(map[], TWO_CONVEYORS) == Two(LINK, NEW_BOX, EMPTY_SLOTS, NEW_BOX)
  {
    var config := [Listing(1, [2]), Listing(2, [])];
    var first := [Listing(1, [2])];
    assert config[..1] == first && first[..0] == [];
    var none: Convs := map[];
    assert Configured(first[..0]) == none && none.Keys == {};
    ConnectTo2();
    assert Configured(first) == none[1 := Conv(1, LINK, NEW_BOX)];
  }

  const BOX_1 := Box(5, 1, NONE, {}, {})

  lemma AddFirst()
    ensures var c, add := Two(LINK, NEW_BOX, EMPTY_SLOTS, NEW_BOX), AddBox(1, 5, 1, [1]);
      Allowed(c, add) && Next(c, add) == Two(LINK_AND_BOX, BOX_1, EMPTY_SLOTS, NEW_BOX)
  {
    TwoNet(LINK, NEW_BOX, EMPTY_SLOTS, NEW_BOX);
    assert LINK[1 := Slot(BOX_CONVEYOR_ID, SLAVE)] == LINK_AND_BOX;
  }

  lemma AddSecond()
    ensures var c, add := Two(LINK_AND_BOX, BOX_1, EMPTY_SLOTS, NEW_BOX), AddBox(2, 5, 1, [1, 2]);
      Allowed(c, add) && Next(c, add) == Two(LINK_AND_BOX, BOX_1, BOX_AT_1, BOX_1)
  {
    TwoNet(LINK_AND_BOX, BOX_1, EMPTY_SLOTS, NEW_BOX);
    assert EMPTY_SLOTS[1 := Slot(BOX_CONVEYOR_ID, SLAVE)] == BOX_AT_1;
  }

  const RED_1 := Box(5, 1, RED, {}, {1})
  const GREEN_2 := Box(5, 1, GREEN, {}, {2})

  lemma SendBoth()
    ensures Next(Two(LINK_AND_BOX, BOX_1, BOX_AT_1, BOX_1), SendPackage(1, RED)) ==
      Two(LINK_AND_BOX, RED_1, BOX_AT_1, BOX_1)
    ensures Taker(Two(LINK_AND_BOX, RED_1, BOX_AT_1, BOX_1), GREEN) == Some(2)
    ensures Next(Two(LINK_AND_BOX, RED_1, BOX_AT_1, BOX_1), SendPackage(2, GREEN)) ==
      Two(LINK_AND_BOX, RED_1, BOX_AT_1, GREEN_2)
  {
    var a := Two(LINK_AND_BOX, BOX_1, BOX_AT_1, BOX_1);
    assert Takers(a, RED) == {1, 2};
    assert Add(BOX_1, 1, RED) == RED_1;
    var b := Two(LINK_AND_BOX, RED_1, BOX_AT_1, BOX_1);
    assert Takers(b, GREEN) == {2};
    assert Add(BOX_1, 2, GREEN) == GREEN_2;
  }

  const TWO_BOXES := [TWO_CONVEYORS] + ([AddBox(1, 5, 1, [1])] + ([AddBox(2, 5, 1, [1, 2])] +
    ([SendPackage(1, RED)] + ([SendPackage(2, GREEN)] + [PackageReceived(2, 5)]))))

  lemma SendsToTwo()
    ensures var c := Two(LINK_AND_BOX, BOX_1, BOX_AT_1, BOX_1);
      var ops := [SendPackage(1, RED)] + ([SendPackage(2, GREEN)] + [PackageReceived(2, 5)]);
      AllAllowed(c, ops) && Run(c, ops) == Two(LINK_AND_BOX, RED_1, BOX_AT_1, GREEN_2)
  {
    var last := Two(LINK_AND_BOX, RED_1, BOX_AT_1, GREEN_2);
    TwoKey(LINK_AND_BOX, RED_1, BOX_AT_1, GREEN_2, 5);
    assert Next(last, PackageReceived(2, 5)) == last;
    RunTakes(last, PackageReceived(2, 5), []);
    assert [PackageReceived(2, 5)] + [] == [PackageReceived(2, 5)];
    SendBoth();
    RunTakes(Two(LINK_AND_BOX, RED_1, BOX_AT_1, BOX_1), SendPackage(2, GREEN), [PackageReceived(2, 5)]);
    RunTakes(Two(LINK_AND_BOX, BOX_1, BOX_AT_1, BOX_1), SendPackage(1, RED),
             [SendPackage(2, GREEN)] + [PackageReceived(2, 5)]);
  }

  /**
   Two conveyors both get a box 5. Package 2 goes to the second one; its arrival
   in box 5 is reported, and it still is in transit and cannot be removed.
   */
  lemma TwinBoxesExample()
    ensures AllAllowed(map[], TWO_BOXES)
    ensures var c := Run(map[], TWO_BOXES);
      2 in c && c[2].box == GREEN_2 && RemoveResultOf(c, 5, 2) == NotInBox
  {
    var sends := [SendPackage(1, RED)] + ([SendPackage(2, GREEN)] + [PackageReceived(2, 5)]);
    SendsToTwo();
    AddSecond();
    RunTakes(Two(LINK_AND_BOX, BOX_1, EMPTY_SLOTS, NEW_BOX), AddBox(2, 5, 1, [1, 2]), sends);
    AddFirst();
    RunTakes(Two(LINK, NEW_BOX, EMPTY_SLOTS, NEW_BOX), AddBox(1, 5, 1, [1]), [AddBox(2, 5, 1, [1, 2])] + sends);
    ConfigureTwo();
    RunTakes(map[], TWO_CONVEYORS, [AddBox(1, 5, 1, [1])] + ([AddBox(2, 5, 1, [1, 2])] + sends));
    TwoKey(LINK_AND_BOX, RED_1, BOX_AT_1, GREEN_2, 5);
  }
}
