/** Shared vocabulary: optional values and node identifiers. */
module Prelude {

  datatype Option<+T> = None | Some(value: T)

  /** The ID an agent publishes in etcd; its database's server UUID is identified with it. */
  type NodeId = nat

  const MAX_UINT64: nat := 0xFFFF_FFFF_FFFF_FFFF

  /** `t - 1` on uint64, which wraps at zero. */
  function Pred64(t: nat): (p: nat)
  {
    if t == 0 then MAX_UINT64 else t - 1
  }
}
