/**
 The conveyor system as a step machine: what each operation does to the conveyor
 table, and which messages it emits towards the ANT thread and the web clients.
 */
module Systems {
  import opened CentralTypes
  import opened Boxes
  import opened Conveyors
  import opened Graphs
  import opened Messages
  import opened Sets

  datatype Refusal = Accepted | AlreadyHasBox | LocationTaken | NoSuchConveyor

  datatype RemoveResult = Removed | InTransit | NotInBox | NoSuchBox

  /** Replies to web clients. */
  datatype Reply =
    | AddBoxReply(box: int, conveyor: int, refusal: Refusal)
    | BoxStateReply(box: int, ptype: PackageType, transit: set<int>, stored: set<int>)
    | AddPackageReply(pkg: int, taker: Option<int>)
    | PackageReceivedReply(pkg: int, box: int)
    | RemovePackageReply(pkg: int, box: int, result: RemoveResult)
    | ClearBoxReply(box: int, cleared: Option<set<int>>)

  datatype Output = ToAnt(cmd: Command) | ToWeb(reply: Reply)

  /**
   The operations of the processing thread. Adding a box also names the route
   that the search finds for it, so that a run fixes which of several shortest
   routes was taken.
   */
  datatype Op =
    | SetState(config: seq<Listing>)
    | AddBox(conveyor: int, box: int, location: int, route: seq<int>)
    | GetBoxState(box: int)
    | SendPackage(pkg: int, ptype: PackageType)
    | PackageReceived(pkg: int, box: int)
    | RemoveFrom(box: int, pkg: int)
    | RequestClear(box: int)
    | ClearCompleted(box: int, pkgs: set<int>)

  // ---- lookups ----

  function Holders(c: Convs, box: int): set<int> {
    set k | k in c && c[k].box.Initialized() && c[k].box.id == box
  }

  /** The conveyor whose box has this id: the lowest-numbered one if there are several. */
  function BoxKey(c: Convs, box: int): Option<int> {
    if Holders(c, box) == {} then None else Some(Least(Holders(c, box)))
  }

  predicate BoxAvailable(c: Convs, box: int) {
    box != INVALID_BOX_ID && BoxKey(c, box).Some?
  }

  function Takers(c: Convs, t: PackageType): set<int> {
    set k | k in c && c[k].box.Initialized() && CanAccept(c[k].box, t) && AddSucceeds(c[k].box, t)
  }

  function Taker(c: Convs, t: PackageType): Option<int> {
    if Takers(c, t) == {} then None else Some(Least(Takers(c, t)))
  }

  function RefusalOf(c: Convs, k: int, location: int): Refusal {
    if k !in c then NoSuchConveyor
    else if c[k].box.Initialized() then AlreadyHasBox
    else if 0 <= location < |c[k].slots| && c[k].slots[location].target != EMPTY_CONVEYOR_ID then LocationTaken
    else Accepted
  }

  function RemoveResultOf(c: Convs, box: int, pkg: int): RemoveResult {
    if !BoxAvailable(c, box) then NoSuchBox
    else
      var b := c[BoxKey(c, box).value].box;
      if pkg in b.stored then Removed else if pkg in b.transit then InTransit else NotInBox
  }

  /** The box a completed clear is applied to: conveyor 1's when no box has the id. */
  function ClearKey(c: Convs, box: int): int {
    if BoxKey(c, box).Some? then BoxKey(c, box).value else INPUT_CONVEYOR_ID
  }

  // ---- steps ----

  /** What the program demands of its callers: otherwise a lookup throws or an empty route is used. */
  ghost predicate Allowed(c: Convs, op: Op) {
    match op
    case AddBox(k, _, location, route) =>
      && (k in c && !c[k].box.Initialized() ==> 0 <= location < |c[k].slots|)
      && (RefusalOf(c, k, location) == Accepted ==>
            Closed(Net(c)) && INPUT_CONVEYOR_ID in c && IsShortest(Net(c), route, INPUT_CONVEYOR_ID, k))
    case ClearCompleted(box, _) => BoxKey(c, box).Some? || INPUT_CONVEYOR_ID in c
    case _ => true
  }

  /** A request for a new box that is not refused. */
  predicate Accepts(c: Convs, op: Op) {
    op.AddBox? && RefusalOf(c, op.conveyor, op.location) == Accepted
  }

  function WithBox(c: Convs, k: int, b: Box): Convs
    requires k in c
  {
    c[k := c[k].(box := b)]
  }

  ghost function Next(c: Convs, op: Op): Convs
    requires Allowed(c, op)
  {
    match op
    case SetState(config) => Configured(config)
    case AddBox(k, box, location, _) =>
      if RefusalOf(c, k, location) == Accepted then c[k := AttachBox(c[k], box, location)] else c
    case GetBoxState(_) => c
    case SendPackage(pkg, t) =>
      var taker := Taker(c, t);
      if taker.None? then c else WithBox(c, taker.value, Add(c[taker.value].box, pkg, t))
    case PackageReceived(pkg, box) =>
      if !BoxAvailable(c, box) then c
      else WithBox(c, BoxKey(c, box).value, Receive(c[BoxKey(c, box).value].box, pkg))
    case RemoveFrom(box, pkg) =>
      if RemoveResultOf(c, box, pkg) != Removed then c
      else WithBox(c, BoxKey(c, box).value, Remove(c[BoxKey(c, box).value].box, pkg))
    case RequestClear(_) => c
    case ClearCompleted(box, pkgs) =>
      WithBox(c, ClearKey(c, box), Clear(c[ClearKey(c, box)].box, pkgs))
  }

  function Disconnects(keys: set<int>): seq<Command>
    decreases |keys|
  {
    if keys == {} then [] else [Disconnect(Least(keys))] + Disconnects(keys - {Least(keys)})
  }

  /** The routing messages for a route: every conveyor on it learns its successor, the last one itself. */
  function Plan(route: seq<int>, box: int): seq<Command> {
    seq(|route|, i requires 0 <= i < |route| =>
      RoutingPlan(route[i], box, if i + 1 < |route| then route[i + 1] else route[i]))
  }

  function AntAll(cmds: seq<Command>): (out: seq<Output>) {
    seq(|cmds|, i requires 0 <= i < |cmds| => ToAnt(cmds[i]))
  }

  ghost function Outputs(c: Convs, op: Op): seq<Output>
    requires Allowed(c, op)
  {
    match op
    case SetState(config) => AntAll(Disconnects(c.Keys) + ConfigureCommands(config))
    case AddBox(k, box, location, route) =>
      var refusal := RefusalOf(c, k, location);
      (if refusal == Accepted then [ToAnt(ConnectBox(k, box, location))] + AntAll(Plan(route, box)) else [])
      + [ToWeb(AddBoxReply(box, k, refusal))]
    case GetBoxState(box) =>
      if !BoxAvailable(c, box) then [] else
      var b := c[BoxKey(c, box).value].box;
      [ToWeb(BoxStateReply(b.id, b.ptype, b.transit, b.stored))]
    case SendPackage(pkg, t) =>
      var taker := Taker(c, t);
      if taker.None? then [ToWeb(AddPackageReply(pkg, None))] else
      var box := c[taker.value].box.id;
      [ToAnt(AddPackage(box, pkg, t)), ToWeb(AddPackageReply(pkg, Some(box)))]
    case PackageReceived(pkg, box) =>
      if !BoxAvailable(c, box) then [] else [ToWeb(PackageReceivedReply(pkg, box))]
    case RemoveFrom(box, pkg) =>
      var result := RemoveResultOf(c, box, pkg);
      (if result == Removed then [ToAnt(RemovePackage(c[BoxKey(c, box).value].id, pkg, box))] else [])
      + [ToWeb(RemovePackageReply(pkg, box, result))]
    case RequestClear(box) =>
      if !BoxAvailable(c, box) then [ToWeb(ClearBoxReply(box, None))]
      else [ToAnt(ClearBox(c[BoxKey(c, box).value].id, box))]
    case ClearCompleted(box, pkgs) => [ToWeb(ClearBoxReply(box, Some(pkgs)))]
  }

  // ---- runs ----

  ghost predicate AllAllowed(c: Convs, ops: seq<Op>)
    decreases |ops|
  {
    ops != [] ==> Allowed(c, ops[0]) && AllAllowed(Next(c, ops[0]), ops[1..])
  }

  ghost function Run(c: Convs, ops: seq<Op>): Convs
    requires AllAllowed(c, ops)
    decreases |ops|
  {
    if ops == [] then c else Run(Next(c, ops[0]), ops[1..])
  }

  ghost function RunOutputs(c: Convs, ops: seq<Op>): seq<Output>
    requires AllAllowed(c, ops)
    decreases |ops|
  {
    if ops == [] then [] else Outputs(c, ops[0]) + RunOutputs(Next(c, ops[0]), ops[1..])
  }
}
