/** Builds the byte messages of outgoing commands and reads incoming reports. */
module ANTThreadMessageHandlers {
  import opened CentralTypes
  import opened Messages
  import opened MessageQueues

  class ANTThreadMessageHandler {
    const queue: MessageQueue<Message>

    constructor (queue: MessageQueue<Message>)
      ensures this.queue == queue
    {
      this.queue := queue;
    }

    method SendConveyorDisconnectMsg(conveyor: int)
      modifies queue
      ensures queue.items == old(queue.items) + [Encode(Disconnect(conveyor))]
    {
      queue.Push(Message(DISCONNECT_ID, conveyor, []));
    }

    method SendConveyorConnectMsg(conveyor: int, target: int, role: Role, location: int)
      modifies queue
      ensures queue.items == old(queue.items) + [Encode(Connect(conveyor, target, role, location))]
    {
      var payload := new byte[3](_ => 0);
      payload[0] := Low(target);
      payload[1] := RoleCode(role);
      payload[2] := Low(location);
      assert payload[..] == [Low(target), RoleCode(role), Low(location)];
      queue.Push(Message(CONVEYOR_CONNECT_ID, conveyor, payload[..]));
    }

    method SendDestinationBoxConnectMsg(conveyor: int, box: int, location: int)
      modifies queue
      ensures queue.items == old(queue.items) + [Encode(ConnectBox(conveyor, box, location))]
    {
      var payload := new byte[2](_ => 0);
      payload[0] := Low(box);
      payload[1] := Low(location);
      assert payload[..] == [Low(box), Low(location)];
      queue.Push(Message(BOX_CONNECT_ID, conveyor, payload[..]));
    }

    method SendPackageToInput(box: int, pkg: int, ptype: PackageType)
      modifies queue
      ensures queue.items == old(queue.items) + [Encode(AddPackage(box, pkg, ptype))]
    {
      var payload := new byte[3](_ => 0);
      payload[0] := Low(box);
      payload[1] := Low(pkg);
      payload[2] := Low(ptype);
      assert payload[..] == [Low(box), Low(pkg), Low(ptype)];
      queue.Push(Message(ADD_PACKAGE_ID, INPUT_CONVEYOR_ID, payload[..]));
    }

    method SendRemovePackageMsg(conveyor: int, pkg: int, box: int)
      modifies queue
      ensures queue.items == old(queue.items) + [Encode(RemovePackage(conveyor, pkg, box))]
    {
      var payload := new byte[2](_ => 0);
      payload[0] := Low(box);
      payload[1] := Low(pkg);
      assert payload[..] == [Low(box), Low(pkg)];
      queue.Push(Message(REMOVE_PACKAGE_ID, conveyor, payload[..]));
    }

    method SendClearBoxMsg(conveyor: int, box: int)
      modifies queue
      ensures queue.items == old(queue.items) + [Encode(ClearBox(conveyor, box))]
    {
      var payload := new byte[1](_ => 0);
      payload[0] := Low(box);
      assert payload[..] == [Low(box)];
      queue.Push(Message(CLEAR_BOX_ID, conveyor, payload[..]));
    }

    method SendRoutingPlanMsg(conveyor: int, box: int, target: int)
      modifies queue
      ensures queue.items == old(queue.items) + [Encode(RoutingPlan(conveyor, box, target))]
    {
      var payload := new byte[2](_ => 0);
      payload[0] := Low(box);
      payload[1] := Low(target);
      assert payload[..] == [Low(box), Low(target)];
      queue.Push(Message(ROUTING_PLAN_ID, conveyor, payload[..]));
    }

    /** The loop that collects the package ids of a clear-box response. */
    static method ReadClearBoxResponse(data: seq<byte>) returns (box: int, packages: set<int>)
      requires |data| >= 2 && |data| >= data[1] as int + 2
      ensures box == data[0]
      ensures forall p :: p in packages <==> exists i :: 2 <= i < data[1] as int + 2 && data[i] == p
    {
      box := data[0];
      var count: int := data[1];
      packages := {};
      var i := 2;
      while i < count + 2
        invariant 2 <= i <= count + 2
        invariant forall p :: p in packages <==> exists k :: 2 <= k < i && data[k] == p
      {
        packages := packages + {data[i]};
        i := i + 1;
      }
    }
  }
}
