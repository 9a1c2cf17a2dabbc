/** Destination boxes: what each operation does to a box, as a function on values. */
module Boxes {
  import opened CentralTypes

  datatype Box = Box(id: int, location: int, ptype: PackageType, stored: set<int>, transit: set<int>)
  {
    predicate Initialized() {
      ptype != INVALID
    }

    function Contents(): set<int> {
      stored + transit
    }

    predicate Full() {
      |transit| + |stored| >= DESTINATION_BOX_SIZE
    }
  }

  const NEW_BOX := Box(INVALID_BOX_ID, NO_LOCATION, INVALID, {}, {})

  /** A type that marks a box as holding packages of one colour. */
  predicate Colour(t: PackageType) {
    t != NONE && t != INVALID
  }

  function Initialize(b: Box, id: int, location: int): Box {
    if b.ptype == INVALID then b.(id := id, location := location, ptype := NONE) else b
  }

  function CanAccept(b: Box, t: PackageType): bool {
    b.ptype == NONE || (b.ptype == t && |b.transit| + |b.stored| < DESTINATION_BOX_SIZE)
  }

  predicate AddSucceeds(b: Box, t: PackageType) {
    b.ptype != INVALID && (b.ptype == NONE || t == b.ptype) && |b.transit| + |b.stored| < DESTINATION_BOX_SIZE
  }

  function Add(b: Box, pkg: int, t: PackageType): Box {
    if AddSucceeds(b, t) then b.(ptype := t, transit := b.transit + {pkg}) else b
  }

  function Receive(b: Box, pkg: int): Box {
    if b.ptype != INVALID && pkg in b.transit then
      b.(transit := b.transit - {pkg}, stored := b.stored + {pkg})
    else
      b
  }

  /** A cleared package leaves the transit set if it is there, and the stored set only otherwise. */
  function Clear(b: Box, pkgs: set<int>): Box {
    b.(transit := b.transit - pkgs, stored := b.stored - (pkgs - b.transit))
  }

  function Remove(b: Box, pkg: int): Box {
    b.(stored := b.stored - {pkg})
  }

  /**
   A box starts without id, colour and packages and ignores packages and reports.
   The first initialisation gives it id, location and type NONE and leaves what
   it holds; any further one changes nothing.
   */
  lemma InitializedOnce(b: Box, id: int, location: int, id2: int, location2: int, pkg: int, t: PackageType)
    ensures !NEW_BOX.Initialized() && NEW_BOX.id == -1 && NEW_BOX.Contents() == {}
    ensures !b.Initialized() ==> Add(b, pkg, t) == b && Receive(b, pkg) == b
    ensures !b.Initialized() ==> Initialize(b, id, location) == Box(id, location, NONE, b.stored, b.transit)
    ensures Initialize(b, id, location).Initialized()
    ensures b.Initialized() ==> Initialize(b, id2, location2) == b
  {
  }

  /** Capacity and emptiness, which every operation keeps. */
  predicate BoxInv(b: Box) {
    && |b.transit| + |b.stored| <= DESTINATION_BOX_SIZE
    && (!Colour(b.ptype) ==> b.transit == {} && b.stored == {})
  }

  /**
   The test made before adding a package and the test made while adding it agree
   exactly when the box is not a full one of type NONE, nor an uninitialised one
   with room that is asked about a package of type INVALID.
   */
  lemma AcceptIffAdded(b: Box, t: PackageType)
    ensures (CanAccept(b, t) <==> AddSucceeds(b, t)) <==>
      !(b.ptype == NONE && b.Full()) && !(b.ptype == INVALID && t == INVALID && !b.Full())
  {
  }

  /** Adding keeps the box invariant exactly when the package has a colour, or is refused. */
  lemma AddKeepsInv(b: Box, pkg: int, t: PackageType)
    requires BoxInv(b)
    ensures BoxInv(Add(b, pkg, t)) <==> Colour(t) || !AddSucceeds(b, t)
    ensures Colour(b.ptype) ==> Add(b, pkg, t).ptype == b.ptype
  {
  }

  lemma ReceiveKeepsInv(b: Box, pkg: int)
    requires BoxInv(b)
    ensures BoxInv(Receive(b, pkg)) && Receive(b, pkg).ptype == b.ptype
    ensures Receive(b, pkg).Contents() == b.Contents()
  {
  }

  lemma ClearKeepsInv(b: Box, pkgs: set<int>)
    requires BoxInv(b)
    ensures BoxInv(Clear(b, pkgs)) && Clear(b, pkgs).ptype == b.ptype
  {
  }

  lemma RemoveKeepsInv(b: Box, pkg: int)
    requires BoxInv(b)
    ensures BoxInv(Remove(b, pkg)) && Remove(b, pkg).ptype == b.ptype
  {
  }

  /**
   Packages of type NONE: two of them leave a box that still counts as having no
   colour although it is not empty, four of them one that claims to accept a
   package and then refuses it.
   */
  lemma UncolouredPackagesBreakTheBox()
    ensures var clean := Initialize(NEW_BOX, 7, 0);
      var one := Add(clean, 1, NONE);
      var four := Add(Add(Add(one, 2, NONE), 3, NONE), 4, NONE);
      && BoxInv(clean) && !BoxInv(one)
      && CanAccept(four, RED) && !AddSucceeds(four, RED)
  {
  }
}
