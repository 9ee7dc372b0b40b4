/** Values that several models share. */
module Basics {

  datatype Option<T> = None | Some(value: T)

  type Byte = x: int | 0 <= x < 256

  const U32_MAX := 0xffff_ffff

  /** The state of a mailbox: at rest, in the run queue, held by a thread, held with news. `InUse` is the
      program's RUNNING. */
  datatype Mode = Idle | Queued | InUse | Notified

  predicate NoRepeats<T(==)>(xs: seq<T>) {
    forall i, j :: 0 <= i < j < |xs| ==> xs[i] != xs[j]
  }
}
