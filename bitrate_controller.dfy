/**
 * The send-side bitrate controller (`BitrateControllerImpl`) and the adapter
 * that feeds it RTCP feedback (`RtcpBandwidthObserverImpl`), both modelled
 * single-threaded. The estimator and the REMB suppressor are the opaque
 * collaborators of module `Collaborators`; the observer that receives
 * `OnNetworkChanged` is the ghost sequence `notified` of delivered triples.
 */
module BitrateControl {
  import opened Ints
  import opened Collaborators
  import opened ReceiverReports

  /** Period of `Process`, in milliseconds. */
  const UpdateIntervalMs: int := 25

  /** The codec modes the controller distinguishes. */
  datatype VideoCodecMode = RealtimeVideo | Screensharing

  /** One `OnNetworkChanged(bitrate, fraction_loss, rtt)` call on the observer. */
  datatype Notification = Notification(bitrateBps: uint32, fractionLoss: uint8, rttMs: int64)

  /** The tuple the notify gate compares, and caches in the four `last_*` fields. */
  datatype NetworkState = NetworkState(bitrateBps: uint32, fractionLoss: uint8, rttMs: int64, reservedBitrateBps: uint32)

  /**
   * The bitrate offered to the observer: what is left of the estimate once the
   * reservation is carved out (never below zero), raised to the estimator's
   * minimum.
   */
  function EffectiveBitrate(bitrateBps: uint32, reservedBps: uint32, minBitrateBps: uint32): (r: uint32)
    ensures r >= minBitrateBps
    ensures r >= bitrateBps - reservedBps
    ensures r == minBitrateBps || r == bitrateBps - reservedBps
  {
    var remaining := bitrateBps - Min(bitrateBps, reservedBps);
    Max(remaining, minBitrateBps)
  }

  /** An estimate of 100000 with 95000 reserved and a minimum of 10000 gives 10000, not 5000. */
  lemma ReservationFloorExample()
    ensures EffectiveBitrate(100000, 95000, 10000) == 10000
  {
  }

  /** The tuple the gate computes from an estimate, a reservation and the minimum. */
  function Observe(e: Estimate, reservedBps: uint32, minBitrateBps: uint32): NetworkState
  {
    NetworkState(EffectiveBitrate(e.bitrateBps, reservedBps, minBitrateBps), e.fractionLoss, e.rttMs, reservedBps)
  }

  /** What the gate delivers: the new triple when the tuple differs from the cache, nothing otherwise. */
  function Delivered(cached: NetworkState, current: NetworkState): seq<Notification>
  {
    if cached != current then [Notification(current.bitrateBps, current.fractionLoss, current.rttMs)] else []
  }

  /**
   * The gate notifies exactly when one of bitrate, loss, rtt or reservation
   * changed; and once it has run, running it again on the same tuple
   * delivers nothing more.
   */
  lemma GateNotifiesOnChangeOnly(cached: NetworkState, current: NetworkState)
    ensures |Delivered(cached, current)| == 1 <==>
      || current.bitrateBps != cached.bitrateBps
      || current.fractionLoss != cached.fractionLoss
      || current.rttMs != cached.rttMs
      || current.reservedBitrateBps != cached.reservedBitrateBps
    ensures Delivered(cached, current) == [] <==> cached == current
    ensures Delivered(cached, current) + Delivered(current, current) == Delivered(cached, current)
  {
  }

  /**
   * The mutable fields of a controller as one value: the effect of each
   * operation is stated against the value they held before the call.
   */
  datatype Fields<E, S> = Fields(
    bandwidthEstimation: E, estimatorCalls: seq<EstimatorCall>,
    rembSuppressor: S, suppressorCalls: seq<SuppressorCall>,
    reservedBitrateBps: uint32, cache: NetworkState, lastBitrateUpdateMs: int64,
    notified: seq<Notification>)

  class BitrateController<!E, !S> {
    const estimator: EstimatorModel<E>
    const suppressor: SuppressorModel<S>
    ghost const initialEstimation: E
    ghost const initialSuppression: S
    /** The cache before the first delivery; the constructor makes it all zero. */
    ghost const initialCache: NetworkState

    var bandwidthEstimation: E
    var rembSuppressor: S
    var reservedBitrateBps: uint32
    var lastBitrateBps: uint32
    var lastFractionLoss: uint8
    var lastRttMs: int64
    var lastReservedBitrateBps: uint32
    var lastBitrateUpdateMs: int64

    /** Every call made on the estimator and on the suppressor, in order. */
    ghost var estimatorCalls: seq<EstimatorCall>
    ghost var suppressorCalls: seq<SuppressorCall>
    /** Every notification delivered to the observer, in order. */
    ghost var notified: seq<Notification>

    /**
     * The collaborators' states are the results of the calls made on them,
     * and the cached triple is the one last delivered to the observer.
     */
    ghost predicate Valid()
      reads this`bandwidthEstimation, this`estimatorCalls, this`rembSuppressor, this`suppressorCalls,
            this`lastBitrateBps, this`lastFractionLoss, this`lastRttMs, this`lastReservedBitrateBps, this`notified
    {
      CollaboratorsReplayed() && CacheDelivered()
    }

    /** The estimator's and the suppressor's states are the results of the calls made on them. */
    ghost predicate CollaboratorsReplayed()
      reads this`bandwidthEstimation, this`estimatorCalls, this`rembSuppressor, this`suppressorCalls
    {
      && bandwidthEstimation == Replay(estimator.apply, initialEstimation, estimatorCalls)
      && rembSuppressor == Replay(suppressor.apply, initialSuppression, suppressorCalls)
    }

    /** The cached triple is the one last delivered to the observer (all zero before the first delivery). */
    ghost predicate CacheDelivered()
      reads this`lastBitrateBps, this`lastFractionLoss, this`lastRttMs, this`lastReservedBitrateBps, this`notified
    {
      if notified == [] then NetworkState(lastBitrateBps, lastFractionLoss, lastRttMs, lastReservedBitrateBps) == initialCache
      else notified[|notified| - 1] == Notification(lastBitrateBps, lastFractionLoss, lastRttMs)
    }

    /** The four cached `last_*` fields. */
    function Cache(): NetworkState
      reads this`lastBitrateBps, this`lastFractionLoss, this`lastRttMs, this`lastReservedBitrateBps
    {
      NetworkState(lastBitrateBps, lastFractionLoss, lastRttMs, lastReservedBitrateBps)
    }

    /** The tuple the gate would compute now. */
    function Current(): NetworkState
      reads this`bandwidthEstimation, this`reservedBitrateBps
    {
      Observe(estimator.Current(bandwidthEstimation), reservedBitrateBps, estimator.MinBitrate(bandwidthEstimation))
    }

    /** The mutable fields, as one value. */
    ghost function Snapshot(): Fields<E, S>
      reads this
    {
      Fields(bandwidthEstimation, estimatorCalls, rembSuppressor, suppressorCalls,
             reservedBitrateBps, Cache(), lastBitrateUpdateMs, notified)
    }

    /**
     * The notify gate ran since `before`: the cache holds the current tuple,
     * and the observer got that tuple iff it differs from the cache of `before`.
     */
    ghost predicate CheckedForChange(before: Fields<E, S>)
      reads this`lastBitrateBps, this`lastFractionLoss, this`lastRttMs, this`lastReservedBitrateBps, this`bandwidthEstimation, this`reservedBitrateBps,
            this`notified
    {
      && Cache() == Current()
      && notified == before.notified + Delivered(before.cache, Current())
    }

    /** Since `before`, one call on the estimator, followed by the notify gate. */
    ghost predicate EstimatorUpdated(before: Fields<E, S>, call: EstimatorCall)
      reads this`lastBitrateBps, this`lastFractionLoss, this`lastRttMs, this`lastReservedBitrateBps, this`bandwidthEstimation, this`reservedBitrateBps,
            this`notified, this`estimatorCalls
    {
      && estimatorCalls == before.estimatorCalls + [call]
      && bandwidthEstimation == estimator.Apply(before.bandwidthEstimation, call)
      && CheckedForChange(before)
    }

    /** The effect of `OnReceivedEstimatedBitrate(bitrateBps)` on the fields `before`. */
    ghost predicate ReceiverEstimateHandled(before: Fields<E, S>, bitrateBps: uint32)
      reads this
    {
      && suppressorCalls == before.suppressorCalls + [SuppressNewRemb(bitrateBps)]
      && rembSuppressor == suppressor.Apply(before.rembSuppressor, SuppressNewRemb(bitrateBps))
      && reservedBitrateBps == before.reservedBitrateBps
      && lastBitrateUpdateMs == before.lastBitrateUpdateMs
      && if suppressor.Suppresses(before.rembSuppressor, bitrateBps) then
           && estimatorCalls == before.estimatorCalls
           && bandwidthEstimation == before.bandwidthEstimation
           && Cache() == before.cache
           && notified == before.notified
         else
           EstimatorUpdated(before, UpdateReceiverEstimate(bitrateBps))
    }

    /** The effect of `OnReceivedRtcpReceiverReport` with the arguments in `block` on the fields `before`. */
    ghost predicate ReceiverBlockHandled(before: Fields<E, S>, block: ReceiverBlock)
      reads this
    {
      && EstimatorUpdated(before, UpdateReceiverBlock(block.fractionLoss, block.rttMs, block.numberOfPackets, block.nowMs))
      && suppressorCalls == before.suppressorCalls
      && rembSuppressor == before.rembSuppressor
      && reservedBitrateBps == before.reservedBitrateBps
      && lastBitrateUpdateMs == before.lastBitrateUpdateMs
    }

    constructor(nowMs: int64, estimator: EstimatorModel<E>, bandwidthEstimation: E,
                suppressor: SuppressorModel<S>, rembSuppressor: S)
      ensures Valid()
      ensures this.estimator == estimator && this.bandwidthEstimation == bandwidthEstimation
      ensures this.suppressor == suppressor && this.rembSuppressor == rembSuppressor
      ensures estimatorCalls == [] && suppressorCalls == [] && notified == []
      ensures lastBitrateUpdateMs == nowMs
      ensures reservedBitrateBps == 0 && Cache() == initialCache == NetworkState(0, 0, 0, 0)
    {
      this.estimator := estimator;
      this.suppressor := suppressor;
      initialEstimation := bandwidthEstimation;
      initialSuppression := rembSuppressor;
      initialCache := NetworkState(0, 0, 0, 0);
      this.bandwidthEstimation := bandwidthEstimation;
      this.rembSuppressor := rembSuppressor;
      lastBitrateUpdateMs := nowMs;
      reservedBitrateBps := 0;
      lastBitrateBps := 0;
      lastFractionLoss := 0;
      lastRttMs := 0;
      lastReservedBitrateBps := 0;
      estimatorCalls := [];
      suppressorCalls := [];
      notified := [];
    }

    /** One call on the estimator. */
    method CallEstimator(call: EstimatorCall)
      requires CollaboratorsReplayed()
      modifies this`bandwidthEstimation, this`estimatorCalls
      ensures CollaboratorsReplayed()
      ensures bandwidthEstimation == estimator.Apply(old(bandwidthEstimation), call)
      ensures estimatorCalls == old(estimatorCalls) + [call]
    {
      ReplayOneMore(estimator.apply, initialEstimation, estimatorCalls, call);
      bandwidthEstimation := estimator.Apply(bandwidthEstimation, call);
      estimatorCalls := estimatorCalls + [call];
    }

    /** One call on the REMB suppressor. */
    method CallSuppressor(call: SuppressorCall)
      requires CollaboratorsReplayed()
      modifies this`rembSuppressor, this`suppressorCalls
      ensures CollaboratorsReplayed()
      ensures rembSuppressor == suppressor.Apply(old(rembSuppressor), call)
      ensures suppressorCalls == old(suppressorCalls) + [call]
    {
      ReplayOneMore(suppressor.apply, initialSuppression, suppressorCalls, call);
      rembSuppressor := suppressor.Apply(rembSuppressor, call);
      suppressorCalls := suppressorCalls + [call];
    }

    /** One call on the estimator, then the notify gate, as every estimator input is handled. */
    method UpdateEstimator(call: EstimatorCall)
      requires Valid()
      modifies this`bandwidthEstimation, this`estimatorCalls, this`lastBitrateBps, this`lastFractionLoss,
               this`lastRttMs, this`lastReservedBitrateBps, this`notified
      ensures Valid()
      ensures EstimatorUpdated(old(Snapshot()), call)
    {
      CallEstimator(call);
      MaybeTriggerOnNetworkChanged();
    }

    method SetStartBitrate(startBitrateBps: int)
      requires Valid()
      modifies this`bandwidthEstimation, this`estimatorCalls
      ensures Valid()
      ensures bandwidthEstimation == estimator.Apply(old(bandwidthEstimation), SetSendBitrate(startBitrateBps))
      ensures estimatorCalls == old(estimatorCalls) + [SetSendBitrate(startBitrateBps)]
    {
      CallEstimator(SetSendBitrate(startBitrateBps));
    }

    method SetMinMaxBitrate(minBitrateBps: int, maxBitrateBps: int)
      requires Valid()
      modifies this`bandwidthEstimation, this`estimatorCalls
      ensures Valid()
      ensures bandwidthEstimation == estimator.Apply(old(bandwidthEstimation), EstimatorCall.SetMinMaxBitrate(minBitrateBps, maxBitrateBps))
      ensures estimatorCalls == old(estimatorCalls) + [EstimatorCall.SetMinMaxBitrate(minBitrateBps, maxBitrateBps)]
    {
      CallEstimator(EstimatorCall.SetMinMaxBitrate(minBitrateBps, maxBitrateBps));
    }

    method SetReservedBitrate(reservedBitrateBps: uint32)
      requires Valid()
      modifies this`reservedBitrateBps, this`lastBitrateBps, this`lastFractionLoss, this`lastRttMs,
               this`lastReservedBitrateBps, this`notified
      ensures Valid()
      ensures this.reservedBitrateBps == reservedBitrateBps
      ensures CheckedForChange(old(Snapshot()))
    {
      this.reservedBitrateBps := reservedBitrateBps;
      MaybeTriggerOnNetworkChanged();
    }

    /** A REMB or TMMBR value: dropped if the suppressor says so, else given to the estimator. */
    method OnReceivedEstimatedBitrate(bitrateBps: uint32)
      requires Valid()
      modifies this`bandwidthEstimation, this`estimatorCalls, this`rembSuppressor, this`suppressorCalls,
               this`lastBitrateBps, this`lastFractionLoss, this`lastRttMs, this`lastReservedBitrateBps,
               this`notified
      ensures Valid()
      ensures ReceiverEstimateHandled(old(Snapshot()), bitrateBps)
    {
      var suppressed := suppressor.Suppresses(rembSuppressor, bitrateBps);
      CallSuppressor(SuppressNewRemb(bitrateBps));
      if suppressed {
        return;
      }
      UpdateEstimator(UpdateReceiverEstimate(bitrateBps));
    }

    /** Milliseconds until the next periodic update is due; 0 when it is due now. */
    function TimeUntilNextProcess(nowMs: int64): (r: int)
      reads this
      ensures r >= 0
      ensures r == 0 <==> nowMs - lastBitrateUpdateMs >= UpdateIntervalMs
      ensures r > 0 ==> nowMs + r == lastBitrateUpdateMs + UpdateIntervalMs
      ensures nowMs >= lastBitrateUpdateMs ==> r <= UpdateIntervalMs
    {
      var timeSinceUpdateMs := nowMs - lastBitrateUpdateMs;
      Max(UpdateIntervalMs - timeSinceUpdateMs, 0)
    }

    /**
     * The periodic tick: nothing before the interval has elapsed; then the
     * estimator's periodic update, the notify gate, and the new update time.
     */
    method Process(nowMs: int64)
      requires Valid()
      modifies this`bandwidthEstimation, this`estimatorCalls, this`lastBitrateBps, this`lastFractionLoss,
               this`lastRttMs, this`lastReservedBitrateBps, this`notified, this`lastBitrateUpdateMs
      ensures Valid()
      ensures old(TimeUntilNextProcess(nowMs)) > 0 ==> unchanged(this)
      ensures old(TimeUntilNextProcess(nowMs)) == 0 ==>
        && EstimatorUpdated(old(Snapshot()), UpdateEstimate(nowMs))
        && lastBitrateUpdateMs == nowMs
    {
      if TimeUntilNextProcess(nowMs) > 0 {
        return;
      }
      ProcessDue(nowMs);
    }

    /** The part of `Process` that runs once the interval has elapsed. */
    method ProcessDue(nowMs: int64)
      requires Valid()
      modifies this`bandwidthEstimation, this`estimatorCalls, this`lastBitrateBps, this`lastFractionLoss,
               this`lastRttMs, this`lastReservedBitrateBps, this`notified, this`lastBitrateUpdateMs
      ensures Valid()
      ensures EstimatorUpdated(old(Snapshot()), UpdateEstimate(nowMs))
      ensures lastBitrateUpdateMs == nowMs
    {
      ghost var before := Snapshot();
      UpdateEstimator(UpdateEstimate(nowMs));
      assert EstimatorUpdated(before, UpdateEstimate(nowMs));
      StampUpdate(nowMs);
      assert EstimatorUpdated(before, UpdateEstimate(nowMs));
    }

    /** Records the time of the last periodic update. */
    method StampUpdate(nowMs: int64)
      modifies this`lastBitrateUpdateMs
      ensures lastBitrateUpdateMs == nowMs
    {
      lastBitrateUpdateMs := nowMs;
    }

    /** The aggregate of a receiver report, passed on to the estimator. */
    method OnReceivedRtcpReceiverReport(fractionLoss: uint8, rttMs: int64, numberOfPackets: int, nowMs: int64)
      requires Valid()
      modifies this`bandwidthEstimation, this`estimatorCalls, this`lastBitrateBps, this`lastFractionLoss,
               this`lastRttMs, this`lastReservedBitrateBps, this`notified
      ensures Valid()
      ensures ReceiverBlockHandled(old(Snapshot()), ReceiverBlock(fractionLoss, rttMs, numberOfPackets, nowMs))
    {
      UpdateEstimator(UpdateReceiverBlock(fractionLoss, rttMs, numberOfPackets, nowMs));
    }

    /**
     * The notify gate: compute the reserved and floored bitrate with the
     * estimator's loss and rtt, and if that tuple or the reservation differs
     * from the cache, rewrite the cache and notify the observer.
     */
    method MaybeTriggerOnNetworkChanged()
      requires CacheDelivered()
      modifies this`lastBitrateBps, this`lastFractionLoss, this`lastRttMs, this`lastReservedBitrateBps,
               this`notified
      ensures CacheDelivered()
      ensures CheckedForChange(old(Snapshot()))
    {
      var estimate := estimator.Current(bandwidthEstimation);
      var bitrate := EffectiveBitrate(estimate.bitrateBps, reservedBitrateBps, estimator.MinBitrate(bandwidthEstimation));
      ghost var cached, current := Cache(), Current();
      assert current == NetworkState(bitrate, estimate.fractionLoss, estimate.rttMs, reservedBitrateBps);
      var newBitrate := false;
      if bitrate != lastBitrateBps || estimate.fractionLoss != lastFractionLoss ||
         estimate.rttMs != lastRttMs || lastReservedBitrateBps != reservedBitrateBps {
        lastBitrateBps := bitrate;
        lastFractionLoss := estimate.fractionLoss;
        lastRttMs := estimate.rttMs;
        lastReservedBitrateBps := reservedBitrateBps;
        newBitrate := true;
      }
      if newBitrate {
        notified := notified + [Notification(bitrate, estimate.fractionLoss, estimate.rttMs)];
      }
      assert notified == old(notified) + Delivered(cached, current);
    }

    /**
     * The bandwidth the gate would offer, without touching any state: none
     * while the estimate is 0, and then `previous` is handed back unchanged.
     */
    method AvailableBandwidth(previous: uint32) returns (ok: bool, bandwidth: uint32)
      ensures ok <==> estimator.Current(bandwidthEstimation).bitrateBps != 0
      ensures ok ==> bandwidth == Current().bitrateBps
      ensures ok ==> bandwidth >= estimator.MinBitrate(bandwidthEstimation)
      ensures !ok ==> bandwidth == previous
    {
      var estimate := estimator.Current(bandwidthEstimation);
      if estimate.bitrateBps != 0 {
        bandwidth := EffectiveBitrate(estimate.bitrateBps, reservedBitrateBps, estimator.MinBitrate(bandwidthEstimation));
        return true, bandwidth;
      }
      return false, previous;
    }

    method SetBitrateSent(bitrateSentBps: uint32)
      requires Valid()
      modifies this`rembSuppressor, this`suppressorCalls
      ensures Valid()
      ensures rembSuppressor == suppressor.Apply(old(rembSuppressor), SuppressorCall.SetBitrateSent(bitrateSentBps))
      ensures suppressorCalls == old(suppressorCalls) + [SuppressorCall.SetBitrateSent(bitrateSentBps)]
    {
      CallSuppressor(SuppressorCall.SetBitrateSent(bitrateSentBps));
    }

    /** Suppression of REMB values is enabled exactly in screensharing mode. */
    method SetCodecMode(mode: VideoCodecMode)
      requires Valid()
      modifies this`rembSuppressor, this`suppressorCalls
      ensures Valid()
      ensures rembSuppressor == suppressor.Apply(old(rembSuppressor), SetEnabled(mode == Screensharing))
      ensures suppressorCalls == old(suppressorCalls) + [SetEnabled(mode == Screensharing)]
    {
      CallSuppressor(SetEnabled(mode == Screensharing));
    }
  }

  /**
   * The adapter that receives RTCP feedback for a controller. It owns the map
   * from each source SSRC to the extended highest sequence number of that
   * source's previous report.
   */
  class RtcpBandwidthObserver<!E, !S> {
    const owner: BitrateController<E, S>
    var ssrcToLastReceivedExtendedHighSeqNum: map<uint32, uint32>

    constructor(owner: BitrateController<E, S>)
      ensures this.owner == owner
      ensures ssrcToLastReceivedExtendedHighSeqNum == map[]
    {
      this.owner := owner;
      ssrcToLastReceivedExtendedHighSeqNum := map[];
    }

    /** A REMB or TMMBR value, passed on to the controller. */
    method OnReceivedEstimatedBitrate(bitrateBps: uint32)
      requires owner.Valid()
      modifies owner
      ensures owner.Valid()
      ensures owner.ReceiverEstimateHandled(old(owner.Snapshot()), bitrateBps)
    {
      owner.OnReceivedEstimatedBitrate(bitrateBps);
    }

    /**
     * A batch of report blocks: the map is updated block by block, and the
     * packet-weighted loss is passed on unless the batch is empty or the
     * aggregate exceeds 255.
     */
    method OnReceivedRtcpReceiverReport(reportBlocks: seq<ReportBlock>, rttMs: int64, nowMs: int64)
      requires owner.Valid()
      modifies this, owner
      ensures owner.Valid()
      ensures ssrcToLastReceivedExtendedHighSeqNum
        == Aggregate(old(ssrcToLastReceivedExtendedHighSeqNum), reportBlocks, rttMs, nowMs).lastSeq
      ensures match Aggregate(old(ssrcToLastReceivedExtendedHighSeqNum), reportBlocks, rttMs, nowMs).forwarded
        case None => unchanged(owner)
        case Some(block) => owner.ReceiverBlockHandled(old(owner.Snapshot()), block)
    {
      if |reportBlocks| == 0 {
        return;
      }
      ghost var acc := Fold(Accumulator(ssrcToLastReceivedExtendedHighSeqNum, 0, 0), reportBlocks);
      ghost var outcome := Aggregate(ssrcToLastReceivedExtendedHighSeqNum, reportBlocks, rttMs, nowMs);
      var fractionLostAggregate, totalNumberOfPackets := CountPackets(reportBlocks);
      if totalNumberOfPackets == 0 {
        fractionLostAggregate := 0;
      } else {
        fractionLostAggregate := TruncDiv(fractionLostAggregate + TruncDiv(totalNumberOfPackets, 2),
                                          totalNumberOfPackets);
      }
      assert fractionLostAggregate == RoundedLoss(acc.lossSum, acc.packets);
      if fractionLostAggregate > MaxFractionLost {
        assert outcome.forwarded == None;
        return;
      }
      assert outcome.forwarded == Some(ReceiverBlock(AsUint8(fractionLostAggregate), rttMs, totalNumberOfPackets, nowMs));
      owner.OnReceivedRtcpReceiverReport(AsUint8(fractionLostAggregate), rttMs, totalNumberOfPackets, nowMs);
    }

    /**
     * The loop over the blocks: for each, the packets since the previous
     * report from its source are counted and weighted by its loss, and the
     * source's entry is moved to this block's sequence number.
     */
    method CountPackets(reportBlocks: seq<ReportBlock>) returns (fractionLostAggregate: int, totalNumberOfPackets: int)
      modifies this`ssrcToLastReceivedExtendedHighSeqNum
      ensures Accumulator(ssrcToLastReceivedExtendedHighSeqNum, fractionLostAggregate, totalNumberOfPackets)
        == Fold(Accumulator(old(ssrcToLastReceivedExtendedHighSeqNum), 0, 0), reportBlocks)
    {
      fractionLostAggregate := 0;
      totalNumberOfPackets := 0;
      var i := 0;
      while i < |reportBlocks|
        invariant 0 <= i <= |reportBlocks|
        invariant Accumulator(ssrcToLastReceivedExtendedHighSeqNum, fractionLostAggregate, totalNumberOfPackets)
          == Fold(Accumulator(old(ssrcToLastReceivedExtendedHighSeqNum), 0, 0), reportBlocks[..i])
      {
        var block := reportBlocks[i];
        var numberOfPackets := 0;
        if block.sourceSsrc in ssrcToLastReceivedExtendedHighSeqNum {
          numberOfPackets := AsInt32(SubU32(block.extendedHighSeqNum,
                                            ssrcToLastReceivedExtendedHighSeqNum[block.sourceSsrc]));
        }
        fractionLostAggregate := fractionLostAggregate + numberOfPackets * block.fractionLost;
        totalNumberOfPackets := totalNumberOfPackets + numberOfPackets;
        ssrcToLastReceivedExtendedHighSeqNum :=
          ssrcToLastReceivedExtendedHighSeqNum[block.sourceSsrc := block.extendedHighSeqNum];
        assert reportBlocks[..i + 1][..i] == reportBlocks[..i];
        i := i + 1;
      }
      assert reportBlocks[..i] == reportBlocks;
    }
  }
}
