/** Vocabulary shared by the models of one Runtime. */
module Fibers {
  type Tid = nat
  type Fid = nat
  type Occurrence = nat

  datatype Option<+T> = None | Some(value: T)

  datatype FiberState = Loading | Active | Pending | Unloading | Failed | Disposed

  function Max(a: nat, b: nat): nat {
    if a < b then b else a
  }
}
