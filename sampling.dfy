/**
 The synthetic sample generator `generateNetworkData` of src/App.jsx.

 The source draws `Math.random()` up to four times and evaluates
 `Math.sin(time / 10)`; here those five values are the fields of a `Draws`
 parameter, and `DrawsInRange` states the ranges they come from. What is left
 is deterministic: the QoS scaling of loss and jitter, the latency penalty
 that QoS removes, the copied bandwidth, the constant voice bandwidth and the
 time stamp.
 */
module Sampling {
  import opened JsMath

  /** The operator's settings, as the sliders and the QoS checkbox leave them. */
  datatype Settings = Settings(
    bandwidth: int,     // kbps
    packetLoss: real,   // percent
    jitter: real,       // ms
    latency: real,      // ms
    qosEnabled: bool)

  /** The settings the component starts with. */
  const DefaultSettings: Settings := Settings(1000, 0.0, 0.0, 20.0, false)

  /** The ranges the sliders allow. */
  predicate SettingsInUiRange(s: Settings)
  {
    && 64 <= s.bandwidth <= 2000
    && 0.0 <= s.packetLoss <= 10.0
    && 0.0 <= s.jitter <= 50.0
    && 10.0 <= s.latency <= 200.0
  }

  /** The component starts with settings the sliders could have set. */
  lemma DefaultSettingsInUiRange()
    ensures SettingsInUiRange(DefaultSettings)
  {
  }

  /** One generated sample. */
  datatype Sample = Sample(
    time: int,
    bandwidth: int,
    networkLoad: int,
    packetLoss: real,
    jitter: real,
    latency: int,
    voiceBandwidth: int)

  /** The codec's fixed bandwidth (G.711), in kbps. */
  const VoiceBandwidth: int := 64

  /**
   The values the source takes from `Math.sin` and `Math.random`: `wave` is
   `sin(time / 10)`; the others are the draws for the latency penalty, the
   load noise, the loss noise and the jitter noise, in source order.
   */
  datatype Draws = Draws(wave: real, latencyDraw: real, loadDraw: real, lossDraw: real, jitterDraw: real)

  /** A sine lies in [-1, 1] and `Math.random()` in [0, 1). */
  predicate DrawsInRange(d: Draws)
  {
    && -1.0 <= d.wave <= 1.0
    && 0.0 <= d.latencyDraw < 1.0
    && 0.0 <= d.loadDraw < 1.0
    && 0.0 <= d.lossDraw < 1.0
    && 0.0 <= d.jitterDraw < 1.0
  }

  /** The periodic base load, 30 +- 20 percent. */
  function BaseLoad(wave: real): real
  {
    30.0 + wave * 20.0
  }

  /** QoS cuts the configured loss to 30 %. */
  function ActualLoss(s: Settings): real
  {
    if s.qosEnabled then s.packetLoss * 0.3 else s.packetLoss
  }

  /** QoS halves the configured jitter. */
  function ActualJitter(s: Settings): real
  {
    if s.qosEnabled then s.jitter * 0.5 else s.jitter
  }

  /** Without QoS the latency gets a random penalty of up to 10 ms. */
  function ActualLatency(s: Settings, latencyDraw: real): real
  {
    s.latency + (if s.qosEnabled then 0.0 else latencyDraw * 10.0)
  }

  /**
   `generateNetworkData(time)` under settings `s` and draws `d`: the sample
   is stamped with `time`, carries the configured bandwidth and 64 kbps of
   voice, and each measured value lies within its noise band around the
   (QoS-scaled) configured value, widened by the rounding to 0, 2, 1 and 0
   decimals.
   */
  function GenerateNetworkData(s: Settings, time: int, d: Draws): (sample: Sample)
    ensures sample.time == time
    ensures sample.bandwidth == s.bandwidth
    ensures sample.voiceBandwidth == VoiceBandwidth
    ensures DrawsInRange(d) ==> 10 <= sample.networkLoad <= 60
    ensures DrawsInRange(d) ==>
      ActualLoss(s) - 0.005 <= sample.packetLoss <= ActualLoss(s) + 0.505
    ensures DrawsInRange(d) ==>
      ActualJitter(s) - 0.05 <= sample.jitter <= ActualJitter(s) + 2.05
    ensures DrawsInRange(d) ==>
      s.latency - 0.5 < sample.latency as real <= s.latency + (if s.qosEnabled then 0.5 else 10.5)
  {
    Sample(
      time,
      s.bandwidth,
      Round(BaseLoad(d.wave) + d.loadDraw * 10.0),
      ToFixed2(ActualLoss(s) + d.lossDraw * 0.5),
      ToFixed1(ActualJitter(s) + d.jitterDraw * 2.0),
      Round(ActualLatency(s, d.latencyDraw)),
      VoiceBandwidth)
  }

  /**
   With QoS on, loss and jitter start from 0.3 and 0.5 times the configured
   values and the latency takes no random penalty, so the sample's latency
   does not depend on the latency draw; with QoS off both are taken as
   configured.
   */
  lemma QosScaling(s: Settings, time: int, d: Draws, d': Draws)
    requires d'.wave == d.wave && d'.loadDraw == d.loadDraw
    requires d'.lossDraw == d.lossDraw && d'.jitterDraw == d.jitterDraw
    ensures s.qosEnabled ==> ActualLoss(s) == 0.3 * s.packetLoss && ActualJitter(s) == 0.5 * s.jitter
    ensures s.qosEnabled ==> GenerateNetworkData(s, time, d) == GenerateNetworkData(s, time, d')
    ensures !s.qosEnabled ==> ActualLoss(s) == s.packetLoss && ActualJitter(s) == s.jitter
    ensures !s.qosEnabled ==> ActualLatency(s, d.latencyDraw) == s.latency + 10.0 * d.latencyDraw
  {
  }

  /**
   For non-negative settings and the same draws, turning QoS on never gives a
   higher loss, jitter or latency in the sample.
   */
  lemma {:induction false} QosNeverWorsens(s: Settings, time: int, d: Draws)
    requires s.packetLoss >= 0.0 && s.jitter >= 0.0
    requires DrawsInRange(d)
    ensures var on, off := GenerateNetworkData(s.(qosEnabled := true), time, d),
                           GenerateNetworkData(s.(qosEnabled := false), time, d);
      on.packetLoss <= off.packetLoss && on.jitter <= off.jitter && on.latency <= off.latency
  {
    var on, off := s.(qosEnabled := true), s.(qosEnabled := false);
    RoundHalfAwayMonotone((ActualLoss(on) + d.lossDraw * 0.5) * 100.0, (ActualLoss(off) + d.lossDraw * 0.5) * 100.0);
    RoundHalfAwayMonotone((ActualJitter(on) + d.jitterDraw * 2.0) * 10.0, (ActualJitter(off) + d.jitterDraw * 2.0) * 10.0);
    RoundMonotone(ActualLatency(on, d.latencyDraw), ActualLatency(off, d.latencyDraw));
  }

  /**
   Settings within the slider ranges give samples with a load in [10, 60] %,
   a loss in [0, 10.5] %, a jitter in [0, 52] ms and a latency in [10, 210] ms.
   */
  lemma {:induction false} SampleRanges(s: Settings, time: int, d: Draws)
    requires SettingsInUiRange(s) && DrawsInRange(d)
    ensures var sample := GenerateNetworkData(s, time, d);
      && 10 <= sample.networkLoad <= 60
      && 0.0 <= sample.packetLoss <= 10.5
      && 0.0 <= sample.jitter <= 52.0
      && 10 <= sample.latency <= 210
  {
    RoundHalfAwayMonotone((ActualLoss(s) + d.lossDraw * 0.5) * 100.0, 1050.0);
    RoundHalfAwayMonotone((ActualJitter(s) + d.jitterDraw * 2.0) * 10.0, 520.0);
  }
}
