# Send-side bitrate controller: a Dafny model

This project models the core of WebRTC's send-side bitrate controller,
`webrtc/modules/bitrate_controller/bitrate_controller_impl.cc`. It has two parts.

- `RtcpBandwidthObserverImpl` receives RTCP feedback. It keeps a map from each
  source SSRC to that source's last extended highest sequence number. For each
  receiver report it computes a packet-weighted average of the blocks'
  fraction-lost values, which are the 8-bit loss fractions of section 6.4.1 of
  RFC 3550. It drops an average above 255 and passes the rest to the controller.
- `BitrateControllerImpl` feeds REMB values (unless the REMB suppressor rejects
  them), receiver-report aggregates and a 25 ms periodic tick into its bandwidth
  estimator. After each of these it runs a notify gate. The gate takes the
  estimate, subtracts the reserved bitrate, floors the result at the estimator's
  minimum, and compares the tuple with four cached `last_*` fields. The observer's
  `OnNetworkChanged` is called only when something changed.

Files:

- `ints.dfy` (module `Ints`): the C++ integer behaviour used by the code. This
  covers 32-bit unsigned subtraction, `uint32_t` stored into `int`, `int` passed
  as `uint8_t`, and division truncating toward zero.
- `collaborators.dfy` (module `Collaborators`): the estimator and the REMB
  suppressor. Each is an opaque state of a type parameter. Functions supplied
  when the controller is built say how that state answers queries and how each
  call changes it.
- `receiver_reports.dfy` (module `ReceiverReports`): the report aggregation as
  a fold over the blocks, and its properties.
- `bitrate_controller.dfy` (module `BitrateControl`): the two classes.
  `RtcpBandwidthObserver` updates its map in place inside a loop that is proved
  equal to the fold. `BitrateController` has the source's fields, plus ghost
  logs of the calls made on each collaborator and of the notifications
  delivered to the observer. `Valid()` ties each collaborator's state to the
  replay of its call log. It also says the cache holds the last delivered
  triple, or zeros before the first delivery.

Integer choices:

- Line 53 stores a 32-bit modular difference into an `int`. The model writes
  that conversion out (`Ints.AsInt32`, two's complement). A sequence number that
  moved backwards therefore counts negative packets.
- The two `int` accumulators at lines 41-57 are mathematical integers, with no
  precondition. Their signed overflow is not modelled (see below).
- Both divisions at lines 66-67 truncate toward zero (`Ints.TruncDiv`).
- The `int` aggregate becomes the `uint8_t` parameter at line 161 through
  `Ints.AsUint8`.

Where the controller's intended design and its code differ, the model follows the code:

- By design the aggregate is a loss fraction in 0..255, and anything else is
  meant to be discarded. The code rejects only values above 255. A negative aggregate, which
  a backward sequence step can produce, is forwarded reduced modulo 256
  (`NegativeAggregatePassesGuard`).
- The intended tick order is: estimator update, then new update time,
  then the notify check. The code runs the notify check before writing
  `last_bitrate_update_ms_` (line 156). `Process` keeps the code's order.

## Model

| member | source | states |
|---|---|---|
| `Ints.SubU32` | webrtc/modules/bitrate_controller/bitrate_controller_impl.cc:53-54 | the unsigned difference is congruent to the true difference modulo 2^32: exact when no wrap, 2^32 minus the gap otherwise |
| `Ints.AsInt32` | webrtc/modules/bitrate_controller/bitrate_controller_impl.cc:51-54 | the `int` holding a `uint32_t` is the unique int32 congruent to it modulo 2^32; it is negative exactly when the value is at least 2^31 |
| `Ints.TruncDiv` | webrtc/modules/bitrate_controller/bitrate_controller_impl.cc:66-67 | C++ division: the remainder is smaller than the divisor in magnitude and has the sign of the dividend |
| `Ints.AsUint8` | webrtc/modules/bitrate_controller/bitrate_controller_impl.cc:71-72 | passing the aggregate as `uint8_t` keeps it modulo 256, and leaves values 0..255 unchanged |
| `ReceiverReports.PacketsSinceLast` | webrtc/modules/bitrate_controller/bitrate_controller_impl.cc:48-54 | a source seen for the first time counts 0 packets; otherwise the count is congruent modulo 2^32 to the advance of its extended highest sequence number |
| `ReceiverReports.Step` | webrtc/modules/bitrate_controller/bitrate_controller_impl.cc:48-61 | one pass of the loop records the block's source, adding it if new, with the block's sequence number; a source seen for the first time adds nothing to either sum; a block with a non-negative count adds at most 255 per packet to the loss sum |
| `ReceiverReports.Fold` | webrtc/modules/bitrate_controller/bitrate_controller_impl.cc:46-62 | the loop over a batch never removes a source from the map |
| `BitrateControl.RtcpBandwidthObserver.CountPackets` | webrtc/modules/bitrate_controller/bitrate_controller_impl.cc:41-62 | the in-place loop leaves exactly the map and the two sums that `Fold` gives from the old map and zero sums |
| `ReceiverReports.PacketCountExamples` | webrtc/modules/bitrate_controller/bitrate_controller_impl.cc:48-54 | 100 then 150 counts 50; 4294967290 then 10 wraps and counts 16; a new source counts 0 |
| `ReceiverReports.FoldTracksLastSeq` | webrtc/modules/bitrate_controller/bitrate_controller_impl.cc:46-62 | after the loop the map's keys are the old keys plus the batch's sources; each source maps to the sequence number of its last block; every other entry is unchanged |
| `ReceiverReports.AggregateUpdatesMap` | webrtc/modules/bitrate_controller/bitrate_controller_impl.cc:38-69 | the map after a whole report has the same three properties, whether the aggregate is forwarded or dropped |
| `ReceiverReports.EmptyReportIgnored` | webrtc/modules/bitrate_controller/bitrate_controller_impl.cc:38-39 | an empty batch leaves the map unchanged and forwards nothing |
| `ReceiverReports.Aggregate` | webrtc/modules/bitrate_controller/bitrate_controller_impl.cc:38-72 | a report never removes a source from the map; anything forwarded comes from a non-empty batch and carries the report's rtt and time unchanged |
| `ReceiverReports.LossSumBounded` | webrtc/modules/bitrate_controller/bitrate_controller_impl.cc:56-57 | when no block's count is negative, the weighted loss sum lies between 0 and 255 times the packet total |
| `ReceiverReports.RoundedLoss` | webrtc/modules/bitrate_controller/bitrate_controller_impl.cc:63-67 | a zero packet total gives 0 rather than a division; a zero loss sum gives 0 whatever the total, even a negative one |
| `ReceiverReports.RoundedLossIsNearest` | webrtc/modules/bitrate_controller/bitrate_controller_impl.cc:63-67 | for a non-negative sum over a positive total, the aggregate is the nearest integer to sum/total, with ties rounded up |
| `ReceiverReports.RoundedLossInRange` | webrtc/modules/bitrate_controller/bitrate_controller_impl.cc:63-68 | a sum within 0..255 times the total gives an aggregate within 0..255, including 0 for a zero total |
| `ReceiverReports.RoundingExamples` | webrtc/modules/bitrate_controller/bitrate_controller_impl.cc:63-67 | a sum of 150 over 100 packets gives 2; 149 gives 1; a zero total gives 0 |
| `ReceiverReports.ForwardReportIsForwarded` | webrtc/modules/bitrate_controller/bitrate_controller_impl.cc:63-72 | a non-empty batch in which no sequence number moved backwards is never dropped; the controller receives the rounded average unchanged by the 8-bit conversion, with the packet total |
| `ReceiverReports.NoNewPacketsForwardsZero` | webrtc/modules/bitrate_controller/bitrate_controller_impl.cc:63-72 | any non-empty batch whose counts add up to 0 forwards loss 0 over 0 packets, rather than nothing, whatever its loss fractions |
| `ReceiverReports.RepeatsChangeNothing` | webrtc/modules/bitrate_controller/bitrate_controller_impl.cc:48-61 | blocks that repeat their sources' current sequence numbers leave the map and both sums as they were |
| `ReceiverReports.RepeatedReportForwardsZero` | webrtc/modules/bitrate_controller/bitrate_controller_impl.cc:38-72 | a non-empty report made only of such blocks leaves the map unchanged and forwards loss 0 over 0 packets |
| `ReceiverReports.CancellingCountsForwardZero` | webrtc/modules/bitrate_controller/bitrate_controller_impl.cc:51-72 | one source advancing by 5 at loss 255 beside one moving back by 5 counts 0 packets with a loss sum of 1275, and forwards loss 0 over 0 packets |
| `ReceiverReports.BackwardStepCanDropReport` | webrtc/modules/bitrate_controller/bitrate_controller_impl.cc:51-69 | a source moving back by 5 beside one advancing by 10 at loss 255 gives aggregate 510; the batch is dropped, but both map entries are still updated |
| `ReceiverReports.NegativeAggregatePassesGuard` | webrtc/modules/bitrate_controller/bitrate_controller_impl.cc:51-72 | with the losses swapped the aggregate is -254; the guard lets it through, and the controller receives loss 2 over 5 packets |
| `BitrateControl.EffectiveBitrate` | webrtc/modules/bitrate_controller/bitrate_controller_impl.cc:181-182 | the offered bitrate is at least the minimum and at least the estimate minus the reservation, and equals one of the two |
| `BitrateControl.ReservationFloorExample` | webrtc/modules/bitrate_controller/bitrate_controller_impl.cc:181-182 | 100000 with 95000 reserved and a 10000 minimum gives 10000, not 5000 |
| `BitrateControl.GateNotifiesOnChangeOnly` | webrtc/modules/bitrate_controller/bitrate_controller_impl.cc:184-195 | the gate delivers one notification iff bitrate, loss, rtt or reservation differs from the cache, none otherwise; a second run on the same tuple adds nothing |
| `BitrateControl.BitrateController.constructor` | webrtc/modules/bitrate_controller/bitrate_controller_impl.cc:86-98 | the update time is the clock's time; reservation and the four cached fields are 0; no calls or notifications yet |
| `BitrateControl.BitrateController.SetStartBitrate` | webrtc/modules/bitrate_controller/bitrate_controller_impl.cc:109-112 | exactly one call, `SetSendBitrate`, reaches the estimator; nothing else changes |
| `BitrateControl.BitrateController.SetMinMaxBitrate` | webrtc/modules/bitrate_controller/bitrate_controller_impl.cc:114-118 | exactly one call, `SetMinMaxBitrate`, reaches the estimator, unvalidated; nothing else changes |
| `BitrateControl.BitrateController.UpdateEstimator` | webrtc/modules/bitrate_controller/bitrate_controller_impl.cc:165-170 | exactly one call reaches the estimator, then the gate runs: the cache holds the new tuple and the observer is notified iff it changed; `Valid()` is kept |
| `BitrateControl.BitrateController.SetReservedBitrate` | webrtc/modules/bitrate_controller/bitrate_controller_impl.cc:120-126 | the reservation is replaced, then the gate runs: the cache holds the new tuple and the observer is notified iff it changed |
| `BitrateControl.BitrateController.OnReceivedEstimatedBitrate` | webrtc/modules/bitrate_controller/bitrate_controller_impl.cc:128-137 | the suppressor always sees the REMB; if it suppresses it, the estimator, cache and observer are untouched; otherwise the estimator gets the estimate and the gate runs |
| `BitrateControl.BitrateController.TimeUntilNextProcess` | webrtc/modules/bitrate_controller/bitrate_controller_impl.cc:139-146 | never negative; 0 exactly when 25 ms have passed since the last update; otherwise the time left until then |
| `BitrateControl.BitrateController.Process` | webrtc/modules/bitrate_controller/bitrate_controller_impl.cc:148-158 | before the 25 ms have passed nothing changes; afterwards the estimator gets its periodic update at `now`, the gate runs, and the update time becomes `now` |
| `BitrateControl.BitrateController.ProcessDue` | webrtc/modules/bitrate_controller/bitrate_controller_impl.cc:150-157 | once the interval has passed: the estimator gets its periodic update at `now`, the gate runs, and the update time becomes `now` |
| `BitrateControl.BitrateController.StampUpdate` | webrtc/modules/bitrate_controller/bitrate_controller_impl.cc:156 | the update time becomes the clock reading and nothing else changes |
| `BitrateControl.BitrateController.OnReceivedRtcpReceiverReport` | webrtc/modules/bitrate_controller/bitrate_controller_impl.cc:160-171 | the estimator receives exactly the report's loss, rtt, packet count and time, then the gate runs; reservation, suppressor and update time are unchanged |
| `BitrateControl.BitrateController.MaybeTriggerOnNetworkChanged` | webrtc/modules/bitrate_controller/bitrate_controller_impl.cc:173-196 | afterwards the cache equals the computed tuple; the observer receives the new triple iff that tuple differed from the old cache; `Valid()` is kept, so the cache remains the last delivered triple |
| `BitrateControl.BitrateController.AvailableBandwidth` | webrtc/modules/bitrate_controller/bitrate_controller_impl.cc:198-210 | changes nothing; fails and hands back the caller's value iff the estimate is 0; otherwise it returns the same bitrate the gate computes, which is at least the minimum |
| `BitrateControl.BitrateController.SetBitrateSent` | webrtc/modules/bitrate_controller/bitrate_controller_impl.cc:212-215 | exactly one call, `SetBitrateSent`, reaches the suppressor; nothing else changes |
| `BitrateControl.BitrateController.SetCodecMode` | webrtc/modules/bitrate_controller/bitrate_controller_impl.cc:217-220 | the suppressor is enabled exactly in screensharing mode; nothing else changes |
| `BitrateControl.RtcpBandwidthObserver.constructor` | webrtc/modules/bitrate_controller/bitrate_controller_impl.cc:24-26 | the adapter is bound to its controller and starts with an empty SSRC map |
| `BitrateControl.RtcpBandwidthObserver.OnReceivedEstimatedBitrate` | webrtc/modules/bitrate_controller/bitrate_controller_impl.cc:30-32 | the controller handles the REMB exactly as its own `OnReceivedEstimatedBitrate` does |
| `BitrateControl.RtcpBandwidthObserver.OnReceivedRtcpReceiverReport` | webrtc/modules/bitrate_controller/bitrate_controller_impl.cc:34-73 | the in-place loop leaves the map that `Aggregate` specifies; a dropped or empty batch leaves the controller untouched, any other reaches it as one receiver block |

## Left out

- Locking and threads: `CriticalSectionScoped` and the critical section are not modelled, and the controller is single-threaded. Racing notifications and observer re-entry cannot happen in the model. So the order in `Process` of the gate and the write of `last_bitrate_update_ms_` (line 156) cannot be observed, although the model keeps it.
- The internals of `SendSideBandwidthEstimation` and `RembSuppressor`: their sources are not part of this model. They are opaque states, changed by supplied functions. The suppressor's verdict is modelled as a function of its state and the REMB only; the clock readings it makes are not modelled.
- The clock: `Process` takes one `nowMs` value for its three clock readings (lines 143, 153 and 156), and the constructor takes the initial reading.
- `BitrateControl.BitrateController.Process`: the `int32_t` result, which is always 0, is not modelled.
- `BitrateControl.BitrateController.TimeUntilNextProcess`: 64-bit overflow of `now - last_bitrate_update_ms_` is not modelled; times are unbounded integers within the int64 range.
- `BitrateControl.RtcpBandwidthObserver.OnReceivedRtcpReceiverReport`: signed overflow of the `int` accumulators (undefined behaviour in C++) is not modelled; the sums are exact.
- `ReceiverReports.LossSumBounded`: the bound is stated on exact integer sums; a batch whose weighted sum exceeds the int32 range overflows in C++ (undefined behaviour), which the model does not capture.
- `ReceiverReports.ForwardReportIsForwarded`: likewise stated on exact integer sums; a batch whose sums leave the int32 range is outside what the model captures.
- `AvailableBandwidth` writes through a pointer in the source. The model passes the caller's value in and returns the new value, and the call changes no controller state.
- The factory functions, `CreateRtcpBandwidthObserver` and the destructor (lines 80-84, 101-107) are allocation plumbing. Construction is modelled by the two constructors.
- `rtp_rtcp_defines.h` is not part of this model. Report blocks carry only the three fields read here, typed as RFC 3550 defines them.
- audio/audio_state.cc is stream-registration and device plumbing with no controller logic, so it is not modelled.
