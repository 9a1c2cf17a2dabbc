/** The commands the processing thread sends over ANT, and their byte messages. */
module Messages {
  import opened CentralTypes

  // Message ids (ant_messages.h)
  const CONVEYOR_STATE_ID := 0
  const CONVEYOR_STATE_RESPONSE_ID := 1
  const PACKAGE_ARRIVED_ID := 2
  const CONVEYOR_CONNECT_ID := 4
  const BOX_CONNECT_ID := 5
  const DISCONNECT_ID := 6
  const CLEAR_BOX_ID := 7
  const CLEAR_BOX_RESPONSE_ID := 8
  const REMOVE_PACKAGE_ID := 9
  const ADD_PACKAGE_ID := 10
  const ROUTING_PLAN_ID := 11
  const MESSAGE_RECEIVED_ID := 12

  datatype Message = Message(id: int, conveyor: int, data: seq<byte>)

  datatype Command =
    | Disconnect(conveyor: int)
    | Connect(conveyor: int, target: int, role: Role, location: int)
    | ConnectBox(conveyor: int, box: int, location: int)
    | AddPackage(box: int, pkg: int, ptype: PackageType)
    | RemovePackage(conveyor: int, pkg: int, box: int)
    | ClearBox(conveyor: int, box: int)
    | RoutingPlan(conveyor: int, box: int, next: int)

  /** Storing an `int` into an `unsigned char` keeps its low eight bits. */
  function Low(x: int): (b: byte)
    ensures IsByte(x) ==> b == x
  {
    x % 256
  }

  predicate IsByte(x: int) {
    0 <= x < 256
  }

  function RoleCode(r: Role): byte {
    match r
    case MASTER => 0
    case SLAVE => 1
    case UNCONNECTED => 2
  }

  function Encode(cmd: Command): Message {
    match cmd
    case Disconnect(c) => Message(DISCONNECT_ID, c, [])
    case Connect(c, t, r, l) => Message(CONVEYOR_CONNECT_ID, c, [Low(t), RoleCode(r), Low(l)])
    case ConnectBox(c, b, l) => Message(BOX_CONNECT_ID, c, [Low(b), Low(l)])
    case AddPackage(b, p, t) => Message(ADD_PACKAGE_ID, INPUT_CONVEYOR_ID, [Low(b), Low(p), Low(t)])
    case RemovePackage(c, p, b) => Message(REMOVE_PACKAGE_ID, c, [Low(b), Low(p)])
    case ClearBox(c, b) => Message(CLEAR_BOX_ID, c, [Low(b)])
    case RoutingPlan(c, b, n) => Message(ROUTING_PLAN_ID, c, [Low(b), Low(n)])
  }

  /** What a conveyor can read back out of a message. */
  function Decode(m: Message): Option<Command> {
    if m.id == DISCONNECT_ID && |m.data| == 0 then
      Some(Disconnect(m.conveyor))
    else if m.id == CONVEYOR_CONNECT_ID && |m.data| == 3 && m.data[1] < 3 then
      Some(Connect(m.conveyor, m.data[0],
                   if m.data[1] == 0 then MASTER else if m.data[1] == 1 then SLAVE else UNCONNECTED, m.data[2]))
    else if m.id == BOX_CONNECT_ID && |m.data| == 2 then
      Some(ConnectBox(m.conveyor, m.data[0], m.data[1]))
    else if m.id == ADD_PACKAGE_ID && m.conveyor == INPUT_CONVEYOR_ID && |m.data| == 3 then
      Some(AddPackage(m.data[0], m.data[1], m.data[2]))
    else if m.id == REMOVE_PACKAGE_ID && |m.data| == 2 then
      Some(RemovePackage(m.conveyor, m.data[1], m.data[0]))
    else if m.id == CLEAR_BOX_ID && |m.data| == 1 then
      Some(ClearBox(m.conveyor, m.data[0]))
    else if m.id == ROUTING_PLAN_ID && |m.data| == 2 then
      Some(RoutingPlan(m.conveyor, m.data[0], m.data[1]))
    else
      None
  }

  /** The payload values that survive being stored in a byte. */
  predicate Fits(cmd: Command) {
    match cmd
    case Disconnect(_) => true
    case Connect(_, t, _, l) => IsByte(t) && IsByte(l)
    case ConnectBox(_, b, l) => IsByte(b) && IsByte(l)
    case AddPackage(b, p, t) => IsByte(b) && IsByte(p) && IsByte(t)
    case RemovePackage(_, p, b) => IsByte(p) && IsByte(b)
    case ClearBox(_, b) => IsByte(b)
    case RoutingPlan(_, b, n) => IsByte(b) && IsByte(n)
  }

  /** A message's payload carries its command exactly when every payload value fits a byte. */
  lemma RoundTrip(cmd: Command)
    ensures Decode(Encode(cmd)) == Some(cmd) <==> Fits(cmd)
  {
  }

  lemma EncodeInjective(a: Command, b: Command)
    requires Fits(a) && Fits(b) && Encode(a) == Encode(b)
    ensures a == b
  {
  }

  predicate SameKind(a: Command, b: Command) {
    match a
    case Disconnect(_) => b.Disconnect?
    case Connect(_, _, _, _) => b.Connect?
    case ConnectBox(_, _, _) => b.ConnectBox?
    case AddPackage(_, _, _) => b.AddPackage?
    case RemovePackage(_, _, _) => b.RemovePackage?
    case ClearBox(_, _) => b.ClearBox?
    case RoutingPlan(_, _, _) => b.RoutingPlan?
  }

  /** A message's id alone tells what kind of command it is. */
  lemma IdsTellKinds(a: Command, b: Command)
    ensures Encode(a).id == Encode(b).id <==> SameKind(a, b)
  {
  }

  /** One message of each kind, in the numbers of the protocol. */
  lemma WireFormat()
    ensures Encode(Disconnect(2)) == Message(6, 2, [])
    ensures Encode(Connect(2, 3, MASTER, 1)) == Message(4, 2, [3, 0, 1])
    ensures Encode(Connect(2, 3, SLAVE, 1)) == Message(4, 2, [3, 1, 1])
    ensures Encode(ConnectBox(2, 5, 3)) == Message(5, 2, [5, 3])
    ensures Encode(AddPackage(5, 7, RED)) == Message(10, 1, [5, 7, 0])
    ensures Encode(AddPackage(5, 7, YELLOW)) == Message(10, 1, [5, 7, 1])
    ensures Encode(AddPackage(5, 7, GREEN)) == Message(10, 1, [5, 7, 2])
    ensures Encode(RemovePackage(2, 7, 5)) == Message(9, 2, [5, 7])
    ensures Encode(ClearBox(2, 5)) == Message(7, 2, [5])
    ensures Encode(RoutingPlan(2, 5, 3)) == Message(11, 2, [5, 3])
  {
  }

  /** The messages that can be waiting in the queue towards the ANT thread. */
  predicate Queueable(m: Message) {
    && (CONVEYOR_CONNECT_ID <= m.id <= CLEAR_BOX_ID || REMOVE_PACKAGE_ID <= m.id <= ROUTING_PLAN_ID)
    && |m.data| <= 3
    && (m.id == ADD_PACKAGE_ID ==> m.conveyor == INPUT_CONVEYOR_ID)
  }

  lemma EncodeIsQueueable(cmd: Command)
    ensures Queueable(Encode(cmd))
  {
  }

  /** What the ANT thread passes up to the processing thread. */
  datatype Report =
    | ReportCleared(box: byte, packages: set<int>)
    | ReportArrived(box: byte, pkg: byte)
}
