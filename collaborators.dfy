/**
 * The controller's collaborators, whose sources are not part of this model:
 * the send-side bandwidth estimator and the REMB suppressor. Each is an
 * opaque state of a type the controller never looks into, together with the
 * functions that say how that state answers queries and how it changes when
 * the controller calls one of its operations. Every call the controller makes
 * is named by a value of `EstimatorCall` or `SuppressorCall`.
 */
module Collaborators {
  import opened Ints

  /** What `CurrentEstimate` reports: bitrate, loss fraction and round-trip time. */
  datatype Estimate = Estimate(bitrateBps: uint32, fractionLoss: uint8, rttMs: int64)

  /** The operations of the bandwidth estimator that change its state. */
  datatype EstimatorCall =
    | SetSendBitrate(startBitrateBps: int)
    | SetMinMaxBitrate(minBitrateBps: int, maxBitrateBps: int)
    | UpdateReceiverEstimate(bitrateBps: uint32)
    | UpdateReceiverBlock(fractionLoss: uint8, rttMs: int64, numberOfPackets: int, nowMs: int64)
    | UpdateEstimate(nowMs: int64)

  /**
   * An estimator with internal state of type E: `apply` is the effect of one
   * call, `current` answers `CurrentEstimate` and `minBitrate` answers
   * `GetMinBitrate`.
   */
  datatype EstimatorModel<!E> = EstimatorModel(
    apply: (E, EstimatorCall) -> E,
    current: E -> Estimate,
    minBitrate: E -> uint32)
  {
    /** The state after `call` is made in state `e`. */
    function Apply(e: E, call: EstimatorCall): E { apply(e, call) }

    /** What `CurrentEstimate` reports in state `e`. */
    function Current(e: E): Estimate { current(e) }

    /** What `GetMinBitrate` reports in state `e`. */
    function MinBitrate(e: E): uint32 { minBitrate(e) }
  }

  /** The operations of the REMB suppressor that change its state. */
  datatype SuppressorCall =
    | SetBitrateSent(bitrateSentBps: uint32)
    | SetEnabled(enabled: bool)
    | SuppressNewRemb(bitrateBps: uint32)

  /**
   * A REMB suppressor with internal state of type S: `suppresses` is the
   * verdict `SuppresNewRemb` returns in a given state, and `apply` is the
   * effect of one call on that state (including the bookkeeping of
   * `SuppresNewRemb` itself).
   */
  datatype SuppressorModel<!S> = SuppressorModel(
    apply: (S, SuppressorCall) -> S,
    suppresses: (S, uint32) -> bool)
  {
    /** The state after `call` is made in state `s`. */
    function Apply(s: S, call: SuppressorCall): S { apply(s, call) }

    /** Whether `SuppresNewRemb(bitrateBps)` suppresses the value in state `s`. */
    function Suppresses(s: S, bitrateBps: uint32): bool { suppresses(s, bitrateBps) }
  }

  /** The state reached from `s` by applying `calls` in order. */
  function Replay<T, C>(apply: (T, C) -> T, s: T, calls: seq<C>): T
    decreases |calls|
  {
    if calls == [] then s
    else apply(Replay(apply, s, calls[..|calls| - 1]), calls[|calls| - 1])
  }

  /** Replaying one more call is applying that call to the replayed state. */
  lemma ReplayOneMore<T, C>(apply: (T, C) -> T, s: T, calls: seq<C>, c: C)
    ensures Replay(apply, s, calls + [c]) == apply(Replay(apply, s, calls), c)
  {
    assert (calls + [c])[..|calls|] == calls;
  }
}
