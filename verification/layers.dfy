/** The interaction-layer masks the core assigns to parts and sockets, as named tags. */
module Layers {

  datatype Layer =
    | LockedPartLayer
    | UnlockedLayer
    | AssembledPartLayer
    | LockedSocketLayer
    | AssembledSocketLayer
  {
    /** The layer name passed to `GetMask`. */
    function Name(): string
    {
      match this
      case LockedPartLayer => "LockedPart"
      case UnlockedLayer => "Unlocked"
      case AssembledPartLayer => "AssembledPart"
      case LockedSocketLayer => "LockedSocket"
      case AssembledSocketLayer => "AssembledSocket"
    }
  }
}
