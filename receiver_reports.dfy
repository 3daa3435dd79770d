/**
 * Aggregation of a batch of RTCP receiver report blocks into one loss figure,
 * as `RtcpBandwidthObserverImpl::OnReceivedRtcpReceiverReport` does it. The
 * fraction-lost field of each block is the 8-bit fixed-point loss fraction of
 * section 6.4.1 of RFC 3550; blocks are weighted by how many packets each
 * source sent since its previous report, which is read off the 32-bit
 * extended highest sequence number.
 *
 * This module holds the specification: a fold over the blocks, written with
 * the same integer semantics as the C++ code. The loop that runs it in place
 * on the observer's map is `BitrateControl.RtcpBandwidthObserver`.
 */
module ReceiverReports {
  import opened Ints

  /** The fields of an RTCP report block that the aggregation reads. */
  datatype ReportBlock = ReportBlock(sourceSsrc: uint32, fractionLost: uint8, extendedHighSeqNum: uint32)

  datatype Option<T> = None | Some(value: T)

  /** The arguments the aggregation passes on to the controller. */
  datatype ReceiverBlock = ReceiverBlock(fractionLoss: uint8, rttMs: int64, numberOfPackets: int, nowMs: int64)

  /**
   * The state of the aggregation loop: the SSRC map and the two `int`
   * accumulators (kept as mathematical integers).
   */
  datatype Accumulator = Accumulator(lastSeq: map<uint32, uint32>, lossSum: int, packets: int)

  /** What a whole report does: the new SSRC map and what is forwarded, if anything. */
  datatype ReportOutcome = ReportOutcome(lastSeq: map<uint32, uint32>, forwarded: Option<ReceiverBlock>)

  /** The largest aggregate the guard lets through. */
  const MaxFractionLost: int := 255

  /**
   * Packets a block accounts for: none for a source seen for the first time,
   * otherwise the 32-bit wrapping advance of its sequence number, as an `int`.
   */
  function PacketsSinceLast(lastSeq: map<uint32, uint32>, block: ReportBlock): (n: int32)
    ensures block.sourceSsrc !in lastSeq ==> n == 0
    ensures block.sourceSsrc in lastSeq ==>
      (n - (block.extendedHighSeqNum - lastSeq[block.sourceSsrc])) % TWO_TO_THE_32 == 0
  {
    if block.sourceSsrc in lastSeq then
      AsInt32(SubU32(block.extendedHighSeqNum, lastSeq[block.sourceSsrc]))
    else
      0
  }

  /**
   * One iteration of the aggregation loop. The block's source is recorded
   * (added if new) with the block's sequence number; a source seen for the
   * first time weighs nothing; and a block whose count is non-negative adds
   * at most 255 per packet to the loss sum.
   */
  function Step(acc: Accumulator, block: ReportBlock): (r: Accumulator)
    ensures r.lastSeq.Keys == acc.lastSeq.Keys + {block.sourceSsrc}
    ensures r.lastSeq[block.sourceSsrc] == block.extendedHighSeqNum
    ensures block.sourceSsrc !in acc.lastSeq ==> r.lossSum == acc.lossSum && r.packets == acc.packets
    ensures PacketsSinceLast(acc.lastSeq, block) >= 0 ==>
      0 <= r.lossSum - acc.lossSum <= MaxFractionLost * (r.packets - acc.packets)
  {
    var n := PacketsSinceLast(acc.lastSeq, block);
    WeightBounded(n, block.fractionLost);
    Accumulator(acc.lastSeq[block.sourceSsrc := block.extendedHighSeqNum],
                acc.lossSum + n * block.fractionLost,
                acc.packets + n)
  }

  /**
   * The aggregation loop run over `blocks` in order, starting from `acc`. No
   * source is ever forgotten.
   */
  function Fold(acc: Accumulator, blocks: seq<ReportBlock>): (r: Accumulator)
    ensures acc.lastSeq.Keys <= r.lastSeq.Keys
    decreases |blocks|
  {
    if blocks == [] then acc
    else Step(Fold(acc, blocks[..|blocks| - 1]), blocks[|blocks| - 1])
  }

  /**
   * The weighted average: 0 when no packets were counted, otherwise the sum
   * divided by the total, rounded by adding half the total first, with C++
   * truncating division for both divisions. A batch with no loss averages
   * to 0 whatever its packet total, even a negative one.
   */
  function RoundedLoss(lossSum: int, packets: int): (r: int)
    ensures packets == 0 ==> r == 0
    ensures lossSum == 0 ==> r == 0
  {
    if packets == 0 then 0
    else
      var half := TruncDiv(packets, 2);
      assert Abs(half) == Abs(packets) / 2;
      SmallQuotientIsZero(half, packets);
      TruncDiv(lossSum + half, packets)
  }

  /** C++ division of a dividend smaller in magnitude than the divisor gives 0. */
  lemma SmallQuotientIsZero(a: int, b: int)
    requires b != 0 && Abs(a) < Abs(b)
    ensures TruncDiv(a, b) == 0
  {
    assert Abs(a) / Abs(b) == 0;
  }

  /**
   * A whole report: an empty batch changes nothing; an aggregate above 255 is
   * dropped. Sources are never forgotten, and whatever is forwarded carries
   * the report's round-trip time and time stamp unchanged.
   */
  function Aggregate(lastSeq: map<uint32, uint32>, blocks: seq<ReportBlock>, rttMs: int64, nowMs: int64): (r: ReportOutcome)
    ensures lastSeq.Keys <= r.lastSeq.Keys
    ensures r.forwarded.Some? ==> blocks != [] && r.forwarded.value.rttMs == rttMs && r.forwarded.value.nowMs == nowMs
  {
    if blocks == [] then ReportOutcome(lastSeq, None)
    else
      var acc := Fold(Accumulator(lastSeq, 0, 0), blocks);
      var loss := RoundedLoss(acc.lossSum, acc.packets);
      ReportOutcome(acc.lastSeq,
                    if loss > MaxFractionLost then None
                    else Some(ReceiverBlock(AsUint8(loss), rttMs, acc.packets, nowMs)))
  }

  /** The set of sources a batch mentions. */
  function Sources(blocks: seq<ReportBlock>): set<uint32>
  {
    set b | b in blocks :: b.sourceSsrc
  }

  /** No block after the `i`-th comes from the same source. */
  ghost predicate LastOfItsSource(blocks: seq<ReportBlock>, i: int)
    requires 0 <= i < |blocks|
  {
    forall j :: i < j < |blocks| ==> blocks[j].sourceSsrc != blocks[i].sourceSsrc
  }

  /**
   * After a batch, each of its sources maps to the sequence number of its
   * LAST block, and every other source keeps its previous entry.
   */
  lemma FoldTracksLastSeq(acc: Accumulator, blocks: seq<ReportBlock>)
    ensures Fold(acc, blocks).lastSeq.Keys == acc.lastSeq.Keys + Sources(blocks)
    ensures forall i :: 0 <= i < |blocks| && LastOfItsSource(blocks, i) ==>
      Fold(acc, blocks).lastSeq[blocks[i].sourceSsrc] == blocks[i].extendedHighSeqNum
    ensures forall s :: s in acc.lastSeq && s !in Sources(blocks) ==>
      Fold(acc, blocks).lastSeq[s] == acc.lastSeq[s]
  {
    FoldKeys(acc, blocks);
    FoldLastOccurrence(acc, blocks);
    FoldKeepsOthers(acc, blocks);
  }

  lemma {:induction false} FoldKeys(acc: Accumulator, blocks: seq<ReportBlock>)
    ensures Fold(acc, blocks).lastSeq.Keys == acc.lastSeq.Keys + Sources(blocks)
    decreases |blocks|
  {
    if blocks != [] {
      var n := |blocks| - 1;
      FoldKeys(acc, blocks[..n]);
      assert blocks == blocks[..n] + [blocks[n]];
      assert Sources(blocks) == Sources(blocks[..n]) + {blocks[n].sourceSsrc};
    }
  }

  lemma {:induction false} FoldLastOccurrence(acc: Accumulator, blocks: seq<ReportBlock>)
    ensures forall i :: 0 <= i < |blocks| && LastOfItsSource(blocks, i) ==>
      && blocks[i].sourceSsrc in Fold(acc, blocks).lastSeq
      && Fold(acc, blocks).lastSeq[blocks[i].sourceSsrc] == blocks[i].extendedHighSeqNum
    decreases |blocks|
  {
    if blocks != [] {
      var n := |blocks| - 1;
      var front := blocks[..n];
      FoldLastOccurrence(acc, front);
      forall i | 0 <= i < n && LastOfItsSource(blocks, i)
        ensures Fold(acc, blocks).lastSeq[blocks[i].sourceSsrc] == blocks[i].extendedHighSeqNum
      {
        assert blocks[n].sourceSsrc != blocks[i].sourceSsrc;
        assert front[i] == blocks[i];
        assert LastOfItsSource(front, i);
      }
    }
  }

  lemma {:induction false} FoldKeepsOthers(acc: Accumulator, blocks: seq<ReportBlock>)
    ensures forall s :: s in acc.lastSeq && s !in Sources(blocks) ==>
      Fold(acc, blocks).lastSeq[s] == acc.lastSeq[s]
    decreases |blocks|
  {
    if blocks != [] {
      var n := |blocks| - 1;
      FoldKeepsOthers(acc, blocks[..n]);
      forall s | s in acc.lastSeq && s !in Sources(blocks)
        ensures Fold(acc, blocks).lastSeq[s] == acc.lastSeq[s]
      {
        assert blocks[n] in blocks;
        assert s !in Sources(blocks[..n]) by {
          forall b | b in blocks[..n] ensures b in blocks { }
        }
      }
    }
  }

  /** Every block of the batch advanced its source's sequence number by less than 2^31. */
  ghost predicate AllCountsNonNegative(acc: Accumulator, blocks: seq<ReportBlock>)
  {
    forall i :: 0 <= i < |blocks| ==> PacketsSinceLast(Fold(acc, blocks[..i]).lastSeq, blocks[i]) >= 0
  }

  /** With non-negative weights the loss sum is at most 255 times the packet total. */
  lemma {:induction false} LossSumBounded(acc: Accumulator, blocks: seq<ReportBlock>)
    requires 0 <= acc.lossSum <= MaxFractionLost * acc.packets
    requires AllCountsNonNegative(acc, blocks)
    ensures 0 <= Fold(acc, blocks).lossSum <= MaxFractionLost * Fold(acc, blocks).packets
    decreases |blocks|
  {
    if blocks != [] {
      var n := |blocks| - 1;
      var front := blocks[..n];
      forall i | 0 <= i < |front|
        ensures PacketsSinceLast(Fold(acc, front[..i]).lastSeq, front[i]) >= 0
      {
        assert front[..i] == blocks[..i];
        assert front[i] == blocks[i];
      }
      LossSumBounded(acc, front);
      assert PacketsSinceLast(Fold(acc, front).lastSeq, blocks[n]) >= 0;
    }
  }

  lemma WeightBounded(k: int, f: uint8)
    ensures k >= 0 ==> 0 <= k * f <= MaxFractionLost * k
  {
  }

  /**
   * The aggregate is the nearest integer to `lossSum / packets`, with ties
   * rounded up, whenever the sum is non-negative and the total positive.
   */
  lemma RoundedLossIsNearest(lossSum: int, packets: int)
    requires lossSum >= 0 && packets > 0
    ensures -packets <= 2 * (lossSum - RoundedLoss(lossSum, packets) * packets) < packets
  {
    var half := packets / 2;
    assert TruncDiv(packets, 2) == half;
    var x := lossSum + half;
    var r := x / packets;
    assert TruncDiv(x, packets) == r;
    assert x == r * packets + x % packets;
  }

  /** A loss sum within 255 times a non-negative total gives an aggregate within 0..255. */
  lemma RoundedLossInRange(lossSum: int, packets: int)
    requires 0 <= lossSum <= MaxFractionLost * packets
    ensures 0 <= RoundedLoss(lossSum, packets) <= MaxFractionLost
  {
    if packets > 0 {
      var half := packets / 2;
      assert TruncDiv(packets, 2) == half;
      var x := lossSum + half;
      assert 0 <= x < (MaxFractionLost + 1) * packets;
      assert TruncDiv(x, packets) == x / packets;
      QuotientBelow(x, packets, MaxFractionLost + 1);
    }
  }

  lemma QuotientBelow(x: int, p: int, k: int)
    requires 0 <= x < k * p && p > 0
    ensures 0 <= x / p < k
  {
    assert x == (x / p) * p + x % p;
  }

  /**
   * A non-empty batch in which no source's sequence number moved backwards is
   * never dropped, and its aggregate reaches the controller unchanged by the
   * conversion to 8 bits.
   */
  lemma ForwardReportIsForwarded(lastSeq: map<uint32, uint32>, blocks: seq<ReportBlock>, rttMs: int64, nowMs: int64)
    requires blocks != []
    requires AllCountsNonNegative(Accumulator(lastSeq, 0, 0), blocks)
    ensures var acc := Fold(Accumulator(lastSeq, 0, 0), blocks);
      var loss := RoundedLoss(acc.lossSum, acc.packets);
      && 0 <= loss <= MaxFractionLost
      && Aggregate(lastSeq, blocks, rttMs, nowMs).forwarded
           == Some(ReceiverBlock(loss, rttMs, acc.packets, nowMs))
  {
    var acc := Fold(Accumulator(lastSeq, 0, 0), blocks);
    LossSumBounded(Accumulator(lastSeq, 0, 0), blocks);
    var loss := RoundedLoss(acc.lossSum, acc.packets);
    RoundedLossInRange(acc.lossSum, acc.packets);
    assert AsUint8(loss) == loss;
  }

  /**
   * The SSRC map after a report: unchanged for an empty batch; otherwise every
   * source of the batch maps to its last block's sequence number and the other
   * entries stay as they were, whether or not the aggregate is forwarded.
   */
  lemma AggregateUpdatesMap(lastSeq: map<uint32, uint32>, blocks: seq<ReportBlock>, rttMs: int64, nowMs: int64)
    ensures var m := Aggregate(lastSeq, blocks, rttMs, nowMs).lastSeq;
      && m.Keys == lastSeq.Keys + Sources(blocks)
      && (forall i :: 0 <= i < |blocks| && LastOfItsSource(blocks, i) ==>
            m[blocks[i].sourceSsrc] == blocks[i].extendedHighSeqNum)
      && (forall s :: s in lastSeq && s !in Sources(blocks) ==> m[s] == lastSeq[s])
  {
    if blocks != [] {
      FoldTracksLastSeq(Accumulator(lastSeq, 0, 0), blocks);
    }
  }

  /** An empty batch leaves the map as it is and forwards nothing. */
  lemma EmptyReportIgnored(lastSeq: map<uint32, uint32>, rttMs: int64, nowMs: int64)
    ensures Aggregate(lastSeq, [], rttMs, nowMs) == ReportOutcome(lastSeq, None)
  {
  }

  /**
   * Packet counts: 100 then 150 counts 50; 4294967290 then 10 wraps and
   * counts 16; a source seen for the first time counts 0.
   */
  lemma PacketCountExamples()
    ensures PacketsSinceLast(map[7 := 100], ReportBlock(7, 0, 150)) == 50
    ensures PacketsSinceLast(map[7 := 4294967290], ReportBlock(7, 0, 10)) == 16
    ensures PacketsSinceLast(map[7 := 100], ReportBlock(8, 0, 150)) == 0
  {
  }

  /** Rounding: a sum of 150 over 100 packets rounds up to 2; 149 rounds down to 1. */
  lemma RoundingExamples()
    ensures RoundedLoss(150, 100) == 2
    ensures RoundedLoss(149, 100) == 1
    ensures RoundedLoss(0, 0) == 0
  {
  }

  /**
   * A batch that counts no packets in total forwards loss 0 over 0 packets,
   * rather than nothing, whatever the blocks' loss fractions.
   */
  lemma NoNewPacketsForwardsZero(lastSeq: map<uint32, uint32>, blocks: seq<ReportBlock>, rttMs: int64, nowMs: int64)
    requires blocks != []
    requires Fold(Accumulator(lastSeq, 0, 0), blocks).packets == 0
    ensures Aggregate(lastSeq, blocks, rttMs, nowMs).forwarded == Some(ReceiverBlock(0, rttMs, 0, nowMs))
  {
  }

  /** Every block of the batch repeats the sequence number its source already has. */
  ghost predicate AllRepeat(lastSeq: map<uint32, uint32>, blocks: seq<ReportBlock>)
  {
    forall i :: 0 <= i < |blocks| ==>
      blocks[i].sourceSsrc in lastSeq && lastSeq[blocks[i].sourceSsrc] == blocks[i].extendedHighSeqNum
  }

  /** Blocks that only repeat their sources' sequence numbers leave the loop's state as it was. */
  lemma {:induction false} RepeatsChangeNothing(acc: Accumulator, blocks: seq<ReportBlock>)
    requires AllRepeat(acc.lastSeq, blocks)
    ensures Fold(acc, blocks) == acc
    decreases |blocks|
  {
    if blocks != [] {
      var n := |blocks| - 1;
      assert AllRepeat(acc.lastSeq, blocks[..n]);
      RepeatsChangeNothing(acc, blocks[..n]);
      assert PacketsSinceLast(acc.lastSeq, blocks[n]) == 0;
      assert acc.lastSeq[blocks[n].sourceSsrc := blocks[n].extendedHighSeqNum] == acc.lastSeq;
    }
  }

  /**
   * A report whose blocks all repeat their sources' sequence numbers leaves
   * the map as it is and forwards loss 0 over 0 packets.
   */
  lemma RepeatedReportForwardsZero(lastSeq: map<uint32, uint32>, blocks: seq<ReportBlock>, rttMs: int64, nowMs: int64)
    requires blocks != [] && AllRepeat(lastSeq, blocks)
    ensures Aggregate(lastSeq, blocks, rttMs, nowMs) == ReportOutcome(lastSeq, Some(ReceiverBlock(0, rttMs, 0, nowMs)))
  {
    RepeatsChangeNothing(Accumulator(lastSeq, 0, 0), blocks);
  }

  /**
   * Counts of opposite sign can cancel. One source advancing by 5 at loss
   * 255 beside another moving back by 5 gives a total of 0 packets and a
   * loss sum of 1275, and the report forwards loss 0 over 0 packets.
   */
  lemma CancellingCountsForwardZero()
    ensures Aggregate(map[1 := 100, 2 := 100],
                      [ReportBlock(1, 255, 105), ReportBlock(2, 0, 95)], 0, 0)
      == ReportOutcome(map[1 := 105, 2 := 95], Some(ReceiverBlock(0, 0, 0, 0)))
    ensures Fold(Accumulator(map[1 := 100, 2 := 100], 0, 0), [ReportBlock(1, 255, 105), ReportBlock(2, 0, 95)])
      == Accumulator(map[1 := 105, 2 := 95], 1275, 0)
  {
    var blocks := [ReportBlock(1, 255, 105), ReportBlock(2, 0, 95)];
    var start := Accumulator(map[1 := 100, 2 := 100], 0, 0);
    FoldOne(start, blocks[..1]);
    var mid := Fold(start, blocks[..1]);
    assert mid == Accumulator(map[1 := 105, 2 := 100], 1275, 5);
    assert PacketsSinceLast(mid.lastSeq, blocks[1]) == -5;
    var acc := Fold(start, blocks);
    assert acc == Step(mid, blocks[1]);
    assert acc == Accumulator(map[1 := 105, 2 := 95], 1275, 0);
    assert RoundedLoss(acc.lossSum, acc.packets) == 0;
    assert AsUint8(0) == 0;
  }

  lemma FoldOne(acc: Accumulator, blocks: seq<ReportBlock>)
    requires |blocks| == 1
    ensures Fold(acc, blocks) == Step(acc, blocks[0])
  {
    assert blocks[..0] == [];
    assert Fold(acc, blocks[..0]) == acc;
  }

  /**
   * A source whose sequence number moved backwards weighs negatively. With
   * one source advancing by 10 at loss 255 and another moving back by 5 at
   * loss 0, the aggregate is 510: the batch is dropped, yet both map entries
   * are updated.
   */
  lemma BackwardStepCanDropReport()
    ensures Aggregate(map[1 := 100, 2 := 100],
                      [ReportBlock(1, 255, 110), ReportBlock(2, 0, 95)], 0, 0)
      == ReportOutcome(map[1 := 110, 2 := 95], None)
    ensures Fold(Accumulator(map[1 := 100, 2 := 100], 0, 0), [ReportBlock(1, 255, 110), ReportBlock(2, 0, 95)])
      == Accumulator(map[1 := 110, 2 := 95], 2550, 5)
    ensures RoundedLoss(2550, 5) == 510
  {
    var blocks := [ReportBlock(1, 255, 110), ReportBlock(2, 0, 95)];
    var start := Accumulator(map[1 := 100, 2 := 100], 0, 0);
    FoldOne(start, blocks[..1]);
    var mid := Fold(start, blocks[..1]);
    assert mid == Accumulator(map[1 := 110, 2 := 100], 2550, 10);
    assert PacketsSinceLast(mid.lastSeq, blocks[1]) == -5;
    var acc := Fold(start, blocks);
    assert acc == Step(mid, blocks[1]);
    assert acc == Accumulator(map[1 := 110, 2 := 95], 2550, 5);
    assert TruncDiv(5, 2) == 2;
    assert TruncDiv(2552, 5) == 510;
    assert RoundedLoss(2550, 5) == 510;
  }

  /**
   * The guard only rejects aggregates above 255, not negative ones. With one
   * source advancing by 10 at loss 0 and another moving back by 5 at loss 255,
   * the aggregate is -254, which passes the guard and reaches the controller
   * as the 8-bit value 2 over -5 + 10 = 5 packets.
   */
  lemma NegativeAggregatePassesGuard()
    ensures Aggregate(map[1 := 100, 2 := 100],
                      [ReportBlock(1, 0, 110), ReportBlock(2, 255, 95)], 0, 0)
      == ReportOutcome(map[1 := 110, 2 := 95], Some(ReceiverBlock(2, 0, 5, 0)))
    ensures Fold(Accumulator(map[1 := 100, 2 := 100], 0, 0), [ReportBlock(1, 0, 110), ReportBlock(2, 255, 95)])
      == Accumulator(map[1 := 110, 2 := 95], -1275, 5)
    ensures RoundedLoss(-1275, 5) == -254
  {
    var blocks := [ReportBlock(1, 0, 110), ReportBlock(2, 255, 95)];
    var start := Accumulator(map[1 := 100, 2 := 100], 0, 0);
    FoldOne(start, blocks[..1]);
    var mid := Fold(start, blocks[..1]);
    assert mid == Accumulator(map[1 := 110, 2 := 100], 0, 10);
    assert PacketsSinceLast(mid.lastSeq, blocks[1]) == -5;
    var acc := Fold(start, blocks);
    assert acc == Step(mid, blocks[1]);
    assert acc == Accumulator(map[1 := 110, 2 := 95], -1275, 5);
    assert TruncDiv(5, 2) == 2;
    assert TruncDiv(-1273, 5) == -254;
    assert RoundedLoss(-1275, 5) == -254;
  }
}
