/** Constants, messages and commands shared by the central computer's threads. */
module CentralTypes {

  type byte = x: int | 0 <= x < 256

  datatype Option<+T> = None | Some(value: T)

  // Conveyor ids (central_computer_types.h)
  const VALID_CONVEYOR_ID_MIN := 1
  const EMPTY_CONVEYOR_ID := -1
  const BOX_CONVEYOR_ID := -2
  const INPUT_CONVEYOR_ID := 1
  const INVALID_BOX_ID := -1

  const CONVEYOR_MAX_CONNECTIONS := 4
  const DESTINATION_BOX_SIZE := 4

  /** Package types are raw integers: the web message's number is cast unchecked. */
  type PackageType = int
  const RED: PackageType := 0
  const YELLOW: PackageType := 1
  const GREEN: PackageType := 2
  const NONE: PackageType := 3
  const INVALID: PackageType := 4

  const NO_LOCATION := 4

  datatype Role = MASTER | SLAVE | UNCONNECTED

  datatype Slot = Slot(target: int, role: Role)

  const EMPTY_SLOT := Slot(EMPTY_CONVEYOR_ID, UNCONNECTED)
}
