module DestinationBoxes {
  import opened CentralTypes
  import opened Boxes
  import opened Sets

  class DestinationBox {
    ghost const owner: int  // the conveyor this box is part of
    var id: int
    var location: int
    var packageType: PackageType
    var packagesStored: set<int>
    var packagesInTransit: set<int>

    function View(): Box
      reads this
    {
      Box(id, location, packageType, packagesStored, packagesInTransit)
    }

    constructor (ghost owner: int)
      ensures View() == NEW_BOX && this.owner == owner
    {
      this.owner := owner;
      id, location, packageType := INVALID_BOX_ID, NO_LOCATION, INVALID;
      packagesStored, packagesInTransit := {}, {};
    }

    method InitializeBox(boxId: int, boxLocation: int)
      modifies this
      ensures View() == Initialize(old(View()), boxId, boxLocation)
    {
      if packageType == INVALID {
        packageType := NONE;
        id := boxId;
        location := boxLocation;
      }
    }

    method IsInitialized() returns (r: bool)
      ensures r == View().Initialized()
    {
      r := packageType != INVALID;
    }

    method CanAcceptPackage(package: PackageType) returns (canAccept: bool)
      ensures canAccept == CanAccept(View(), package)
    {
      canAccept := false;
      if packageType == NONE {
        canAccept := true;
      } else if packageType == package && |packagesInTransit| + |packagesStored| < DESTINATION_BOX_SIZE {
        canAccept := true;
      }
    }

    method AddPackage(pkg: int, package: PackageType) returns (added: bool)
      modifies this
      ensures added == AddSucceeds(old(View()), package)
      ensures View() == Add(old(View()), pkg, package)
    {
      added := false;
      if packageType == INVALID {
        return false;
      }
      if packageType != NONE && package != packageType {
      } else if |packagesInTransit| + |packagesStored| >= DESTINATION_BOX_SIZE {
      } else {
        packageType := package;
        packagesInTransit := packagesInTransit + {pkg};
        added := true;
      }
    }

    method PackageReceived(pkg: int)
      modifies this
      ensures View() == Receive(old(View()), pkg)
    {
      if packageType == INVALID {
        return;
      }
      if |packagesInTransit| == 0 {
      } else if pkg !in packagesInTransit {
      } else {
        packagesInTransit := packagesInTransit - {pkg};
        packagesStored := packagesStored + {pkg};
      }
    }

    /** Removes the packages one at a time; the order does not matter. */
    method ClearBox(removed: set<int>)
      modifies this
      ensures View() == Clear(old(View()), removed)
    {
      var rest := removed;
      while rest != {}
        invariant rest <= removed
        invariant View() == Clear(old(View()), removed - rest)
      {
        EmptyOrInhabited(rest);
        var pkg :| pkg in rest;
        rest := rest - {pkg};
        if pkg in packagesInTransit {
          packagesInTransit := packagesInTransit - {pkg};
        } else if pkg in packagesStored {
          packagesStored := packagesStored - {pkg};
        }
      }
      assert removed - rest == removed;
    }

    method HasPackageStored(pkg: int) returns (r: bool)
      ensures r <==> pkg in View().stored
    {
      r := pkg in packagesStored;
    }

    method HasPackageInTransit(pkg: int) returns (r: bool)
      ensures r <==> pkg in View().transit
    {
      r := pkg in packagesInTransit;
    }

    method RemovePackage(pkg: int) returns (removed: bool)
      modifies this
      ensures removed <==> pkg in old(View()).stored
      ensures View() == Remove(old(View()), pkg)
    {
      if pkg in packagesStored {
        packagesStored := packagesStored - {pkg};
        return true;
      }
      return false;
    }
  }
}
