module Basics {
  datatype Option<+T> = None | Some(value: T)

  /** How one store call goes. `LostReply`: the store did the work and the reply was lost,
      so the caller sees an error. `Refused`: an error and no effect. */
  datatype Outcome = Done | Refused | LostReply
}
