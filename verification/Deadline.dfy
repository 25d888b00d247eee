/** The refund deadlines a maker measures its remaining time against. */
module Deadline {
  import opened Bytes

  const REFUND_LOCKTIME_STEP: nat := 20
  const MIN_CONTRACT_REACTION_TIME: nat := 10
  const U32_MAX: nat := 0xffff_ffff

  datatype Protocol = Legacy | Taproot

  function SaturatingAdd(a: nat, b: nat): nat {
    if a + b <= U32_MAX then a + b else U32_MAX
  }

  /** Too little time is left to sweep the incoming contract before its sender can take it back. */
  predicate PastRefundDeadline(protocol: Protocol, timelock: nat, confirmed: Option<nat>, height: nat) {
    match protocol
    case Taproot => SaturatingAdd(timelock, REFUND_LOCKTIME_STEP) < SaturatingAdd(height, MIN_CONTRACT_REACTION_TIME)
    case Legacy =>
      confirmed.Some? &&
      SaturatingAdd(SaturatingAdd(confirmed.value, timelock), REFUND_LOCKTIME_STEP) <
        SaturatingAdd(height, MIN_CONTRACT_REACTION_TIME)
  }
}
