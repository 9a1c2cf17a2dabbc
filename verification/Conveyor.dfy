module ConveyorClass {
  import opened CentralTypes
  import opened Boxes
  import opened Conveyors
  import opened DestinationBoxes

  class Conveyor {
    const id: int
    var connections: seq<Slot>
    const box: DestinationBox

    function View(): Conv
      reads this, box
    {
      Conv(id, connections, box.View())
    }

    constructor (id: int)
      ensures View() == Conv(id, EMPTY_SLOTS, NEW_BOX)
      ensures fresh(box) && box.owner == id
    {
      var b := new DestinationBox(id);
      this.id := id;
      box := b;
      var slots: seq<Slot> := seq(CONVEYOR_MAX_CONNECTIONS, _ => EMPTY_SLOT);
      connections := slots;
      new;
      assert connections == EMPTY_SLOTS;
    }

    method AddConnection(target: int, role: Role, location: int)
      requires 0 <= location < |connections|
      modifies this
      ensures View() == old(View()).(slots := old(connections)[location := Slot(target, role)])
    {
      connections := connections[location := Slot(target, role)];
    }

    method AddDestinationBox(boxId: int, location: int)
      requires 0 <= location < |connections|
      modifies this, box
      ensures View() == AttachBox(old(View()), boxId, location)
    {
      box.InitializeBox(boxId, location);
      connections := connections[location := Slot(BOX_CONVEYOR_ID, SLAVE)];
    }

    method HasConnectionAtLocation(location: int) returns (r: bool)
      requires 0 <= location < |connections|
      ensures r <==> View().slots[location].target != EMPTY_CONVEYOR_ID
    {
      if connections[location].target != EMPTY_CONVEYOR_ID {
        return true;
      }
      return false;
    }
  }
}
