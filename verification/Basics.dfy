/** Vocabulary shared by every component of the model. */
module Basics {

  /** A value the client may not hold: JavaScript's `null` or `undefined`. */
  datatype Option<+T> = None | Some(value: T)

  /** The mailbox state an effect was decided under: the local mutation epoch and the engine's revision. */
  datatype Scope = Scope(mutationEpoch: nat, revision: nat)
}
