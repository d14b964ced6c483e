/** Values shared by every part of the model: optional values, the scalars held
    in the data snapshot, library versions and the errors the core raises. */
module Common {

  datatype Option<+T> = None | Some(value: T)

  /** A scalar held in the snapshot dict: a number, a text label, or Python's `None`. */
  datatype Value = Num(x: real) | Text(s: string) | Null

  /** A release version of the Modbus library, compared component by component. */
  datatype Version = Version(major: nat, minor: nat, micro: nat)

  datatype Error =
    | ClientError(message: string)                  // raised by the register client
    | UpdateFailed(message: string)                 // the single failure of a poll cycle
    | VersionTooOld(found: Version, required: Version)
    | NoOptions                                     // an option lookup on an entity built without options
}
