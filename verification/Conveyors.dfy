/** Conveyors as values, and the table a configuration message builds. */
module Conveyors {
  import opened CentralTypes
  import opened Boxes
  import opened Graphs
  import opened Messages

  datatype Conv = Conv(id: int, slots: seq<Slot>, box: Box)

  type Convs = map<int, Conv>

  const EMPTY_SLOTS := [EMPTY_SLOT, EMPTY_SLOT, EMPTY_SLOT, EMPTY_SLOT]

  /** The configured conveyors that a conveyor's slots name. */
  function Hops(slots: seq<Slot>): set<int> {
    set i | 0 <= i < |slots| && slots[i].target >= VALID_CONVEYOR_ID_MIN :: slots[i].target
  }

  /** The graph the routing search runs on. */
  function Net(c: Convs): Graph {
    map k | k in c :: Hops(c[k].slots)
  }

  ghost predicate WellFormed(c: Convs) {
    forall k :: k in c ==> c[k].id == k && |c[k].slots| == CONVEYOR_MAX_CONNECTIONS && BoxInv(c[k].box)
  }

  /** Every conveyor has four slots. */
  ghost predicate Slotted(c: Convs) {
    forall k :: k in c ==> |c[k].slots| == CONVEYOR_MAX_CONNECTIONS
  }

  /** An uninitialised box holds nothing. */
  ghost predicate Sealed(c: Convs) {
    forall k :: k in c && !c[k].box.Initialized() ==> c[k].box.transit == {} && c[k].box.stored == {}
  }

  function AttachBox(c: Conv, box: int, location: int): Conv
    requires 0 <= location < |c.slots|
  {
    c.(box := Initialize(c.box, box, location), slots := c.slots[location := Slot(BOX_CONVEYOR_ID, SLAVE)])
  }

  // ---- configuration ----

  /** One conveyor of a configuration message: its id and the connections it lists. */
  datatype Listing = Listing(id: int, listed: seq<int>)

  function RoleTowards(seen: set<int>, target: int): Role {
    if target in seen then SLAVE else MASTER
  }

  /** The slots after processing a list of connections, in list order. */
  function Connected(seen: set<int>, listed: seq<int>): (slots: seq<Slot>)
    ensures |slots| == CONVEYOR_MAX_CONNECTIONS
  {
    if listed == [] then EMPTY_SLOTS else
    var n := |listed| - 1;
    var before := Connected(seen, listed[..n]);
    if listed[n] == EMPTY_CONVEYOR_ID then before
    else before[n % CONVEYOR_MAX_CONNECTIONS := Slot(listed[n], RoleTowards(seen, listed[n]))]
  }

  function ConnectCommands(id: int, seen: set<int>, listed: seq<int>): seq<Command> {
    if listed == [] then [] else
    var n := |listed| - 1;
    ConnectCommands(id, seen, listed[..n]) +
    if listed[n] == EMPTY_CONVEYOR_ID then []
    else [Connect(id, listed[n], RoleTowards(seen, listed[n]), n % CONVEYOR_MAX_CONNECTIONS)]
  }

  /** The conveyor table after processing a configuration, in message order. */
  function Configured(config: seq<Listing>): Convs {
    if config == [] then map[] else
    var n := |config| - 1;
    var before := Configured(config[..n]);
    before[config[n].id := Conv(config[n].id, Connected(before.Keys, config[n].listed), NEW_BOX)]
  }

  function ConfigureCommands(config: seq<Listing>): seq<Command> {
    if config == [] then [] else
    var n := |config| - 1;
    ConfigureCommands(config[..n]) +
    ConnectCommands(config[n].id, Configured(config[..n]).Keys, config[n].listed)
  }

  // ---- what a configuration means ----

  /** `i` is the last position congruent to slot `k` that lists a connection. */
  predicate LastListed(listed: seq<int>, k: nat, i: nat) {
    && i < |listed|
    && i % CONVEYOR_MAX_CONNECTIONS == k
    && listed[i] != EMPTY_CONVEYOR_ID
    && forall j :: i < j < |listed| && j % CONVEYOR_MAX_CONNECTIONS == k ==> listed[j] == EMPTY_CONVEYOR_ID
  }

  /** Slot `k` holds the last connection listed at a position congruent to `k`, if there is one. */
  lemma {:induction false} SlotHoldsLastListed(seen: set<int>, listed: seq<int>, k: nat)
    requires k < CONVEYOR_MAX_CONNECTIONS
    ensures forall i: nat :: LastListed(listed, k, i) ==>
      Connected(seen, listed)[k] == Slot(listed[i], RoleTowards(seen, listed[i]))
    ensures (forall i: nat :: !LastListed(listed, k, i)) <==> Connected(seen, listed)[k] == EMPTY_SLOT
  {
    if listed != [] {
      var n := |listed| - 1;
      var init := listed[..n];
      SlotHoldsLastListed(seen, init, k);
      if n % CONVEYOR_MAX_CONNECTIONS == k && listed[n] != EMPTY_CONVEYOR_ID {
        assert LastListed(listed, k, n);
        assert forall i: nat :: LastListed(listed, k, i) ==> i == n;
      } else {
        forall i: nat
          ensures LastListed(listed, k, i) <==> LastListed(init, k, i)
        {
          assert i < n ==> listed[i] == init[i];
          assert forall j :: 0 <= j < n ==> listed[j] == init[j];
        }
      }
    }
  }

  function Ids(config: seq<Listing>): (ids: set<int>) {
    set i | 0 <= i < |config| :: config[i].id
  }

  predicate DistinctIds(config: seq<Listing>) {
    forall i, j :: 0 <= i < j < |config| ==> config[i].id != config[j].id
  }

  lemma {:induction false} ConfiguredKeys(config: seq<Listing>)
    ensures Configured(config).Keys == Ids(config)
    ensures WellFormed(Configured(config))
    ensures forall k :: k in Configured(config) ==> Configured(config)[k].box == NEW_BOX
  {
    if config != [] {
      var n := |config| - 1;
      ConfiguredKeys(config[..n]);
      assert Ids(config) == Ids(config[..n]) + {config[n].id};
    }
  }

  /** A conveyor's slots only look at the conveyors listed before it. */
  lemma {:induction false} ConfiguredAt(config: seq<Listing>, i: nat)
    requires DistinctIds(config) && i < |config|
    ensures config[i].id in Configured(config)
    ensures Configured(config)[config[i].id].slots == Connected(Ids(config[..i]), config[i].listed)
  {
    var n := |config| - 1;
    var init := config[..n];
    ConfiguredKeys(init);
    if i < n {
      assert init[i] == config[i] && init[..i] == config[..i];
      ConfiguredAt(init, i);
    }
  }

  lemma {:induction false} SlotRole(seen: set<int>, listed: seq<int>, k: nat)
    requires k < CONVEYOR_MAX_CONNECTIONS
    ensures var s := Connected(seen, listed)[k];
      s == EMPTY_SLOT || (s.target != EMPTY_CONVEYOR_ID && s.role == RoleTowards(seen, s.target))
  {
    if listed != [] {
      SlotRole(seen, listed[..|listed| - 1], k);
    }
  }

  /**
   Two conveyors that name each other get complementary roles, whatever the
   processing order: the one processed first is the master.
   */
  lemma RolesComplement(config: seq<Listing>, i: nat, j: nat, k: nat, l: nat)
    requires DistinctIds(config) && i < j < |config|
    requires k < CONVEYOR_MAX_CONNECTIONS && l < CONVEYOR_MAX_CONNECTIONS
    ensures config[i].id in Configured(config) && config[j].id in Configured(config)
    ensures var first, second := Configured(config)[config[i].id], Configured(config)[config[j].id];
      && |first.slots| == |second.slots| == CONVEYOR_MAX_CONNECTIONS
      && (first.slots[k].target == second.id != EMPTY_CONVEYOR_ID ==> first.slots[k].role == MASTER)
      && (second.slots[l].target == first.id != EMPTY_CONVEYOR_ID ==> second.slots[l].role == SLAVE)
  {
    ConfiguredKeys(config);
    ConfiguredAt(config, i);
    ConfiguredAt(config, j);
    SlotRole(Ids(config[..i]), config[i].listed, k);
    SlotRole(Ids(config[..j]), config[j].listed, l);
    assert config[j].id !in Ids(config[..i]) by {
      assert forall m :: 0 <= m < i ==> config[..i][m] == config[m];
    }
    assert config[..j][i] == config[i];
  }
}
