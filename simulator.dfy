/**
 The simulator state of the `VoIPNetworkSimulator` component in src/App.jsx:
 whether it runs, the tick counter, the rolling sample history and the last
 call quality, with the interval callback (`Tick`), the start/stop button
 (`Toggle`) and `reset`.

 The callback reads the settings its closure captured; that snapshot is a
 parameter of `Tick`, as are the random and sine values of the new sample.
 */
module Simulator {
  import opened Scoring
  import opened Sampling

  /** How many samples the history keeps (`slice(-30)`). */
  const HistoryLimit: nat := 30

  /** The call quality shown before the first tick and after a reset. */
  const DefaultQuality: Quality := Quality(4.5, 85, Excellent)

  /**
   `h.slice(-30)`: the last 30 entries of `h`, or all of them when there are
   fewer, in their order.
   */
  function Window(h: seq<Sample>): (w: seq<Sample>)
    ensures |w| == if |h| < HistoryLimit then |h| else HistoryLimit
    ensures forall i {:trigger w[i]} :: 0 <= i < |w| ==> w[i] == h[|h| - |w| + i]
  {
    if |h| > HistoryLimit then h[|h| - HistoryLimit..] else h
  }

  /**
   Trimming after every append keeps the same samples as trimming the whole
   stream once: the history is always the last 30 samples ever appended.
   */
  lemma WindowAppend(h: seq<Sample>, x: Sample)
    ensures Window(Window(h) + [x]) == Window(h + [x])
  {
    if |h| > HistoryLimit {
      var w := h[|h| - HistoryLimit..];
      assert (w + [x])[1..] == (h + [x])[|h| + 1 - HistoryLimit..];
    }
  }

  /**
   Appending to a history and trimming it gives min(n + 1, 30) entries, the
   new sample last and the kept old entries in their order before it.
   */
  lemma WindowOfAppend(h: seq<Sample>, x: Sample)
    ensures var w := Window(h + [x]);
      && |w| == (if |h| < HistoryLimit then |h| + 1 else HistoryLimit)
      && w[|w| - 1] == x
      && w[..|w| - 1] == h[|h| + 1 - |w|..]
  {
    var w := Window(h + [x]);
    assert (h + [x])[..|h|] == h;
    assert w[..|w| - 1] == (h + [x])[|h| + 1 - |w|..|h|];
  }

  /** The samples of a stream were stamped 1, 2, 3, ... in order. */
  ghost predicate StampedFromOne(stream: seq<Sample>)
  {
    forall i :: 0 <= i < |stream| ==> stream[i].time == i + 1
  }

  /** Appending the sample stamped n + 1 to a stream stamped 1..n keeps it stamped in order. */
  lemma StampedAppend(stream: seq<Sample>, x: Sample)
    requires StampedFromOne(stream) && x.time == |stream| + 1
    ensures StampedFromOne(stream + [x])
  {
    forall i | 0 <= i < |stream| + 1
      ensures (stream + [x])[i].time == i + 1
    {
      if i < |stream| {
        assert (stream + [x])[i] == stream[i];
      }
    }
  }

  /**
   The window of a stream stamped 1, 2, ..., n holds the consecutive stamps
   n - |w| + 1, ..., n: after 35 ticks, ticks 6 to 35 in order.
   */
  lemma {:induction false} WindowStamps(stream: seq<Sample>)
    requires StampedFromOne(stream)
    ensures var w := Window(stream);
      forall i :: 0 <= i < |w| ==> w[i].time == |stream| - |w| + 1 + i
  {
    var w := Window(stream);
    if |stream| > HistoryLimit {
      var k := |stream| - HistoryLimit;
      forall i | 0 <= i < |w|
        ensures w[i].time == k + 1 + i
      {
        assert w[i] == stream[k + i];
      }
    } else {
      assert w == stream;
    }
  }

  class VoipSimulator {
    var isRunning: bool
    var currentTime: int
    var networkData: seq<Sample>
    var callQuality: Quality
    /** Every sample appended since the component started or was last reset. */
    ghost var stream: seq<Sample>

    /**
     The history is the window of the stream, the tick counter counts the
     stream, and the stream was stamped 1, 2, ... in order.
     */
    ghost predicate Valid()
      reads this
    {
      && networkData == Window(stream)
      && currentTime == |stream|
      && StampedFromOne(stream)
    }

    /** The component's initial state. */
    constructor ()
      ensures Valid()
      ensures !isRunning && currentTime == 0 && networkData == []
      ensures callQuality == DefaultQuality
    {
      isRunning := false;
      currentTime := 0;
      networkData := [];
      callQuality := DefaultQuality;
      stream := [];
    }

    /**
     The history half of a tick: the counter goes up by one and a sample
     stamped with the new count, made from `d` under `settings`, is appended,
     the history being trimmed to its last 30 entries.
     */
    method Advance(settings: Settings, d: Draws) returns (sample: Sample)
      requires Valid()
      modifies this`currentTime, this`networkData, this`stream
      ensures Valid()
      ensures currentTime == old(currentTime) + 1
      ensures sample == GenerateNetworkData(settings, currentTime, d)
      ensures networkData == Window(old(networkData) + [sample])
      ensures forall i :: 0 <= i < |networkData| ==> networkData[i].time == currentTime - |networkData| + 1 + i
    {
      var newTime := currentTime + 1;
      sample := GenerateNetworkData(settings, newTime, d);
      WindowAppend(stream, sample);
      StampedAppend(stream, sample);
      networkData := Window(networkData + [sample]);
      stream := stream + [sample];
      currentTime := newTime;
      WindowStamps(stream);
    }

    /**
     One firing of the interval while running: the counter goes up by one, a
     sample stamped with the new count is appended and the history trimmed to
     its last 30 entries, and the quality becomes the score of the new sample.
     */
    method Tick(settings: Settings, d: Draws)
      requires Valid() && isRunning
      modifies this`currentTime, this`networkData, this`callQuality, this`stream
      ensures Valid()
      ensures currentTime == old(currentTime) + 1
      ensures var sample := GenerateNetworkData(settings, currentTime, d);
        && networkData == Window(old(networkData) + [sample])
        && callQuality == Score(sample.packetLoss, sample.latency as real, sample.jitter, settings.qosEnabled)
      ensures forall i :: 0 <= i < |networkData| ==> networkData[i].time == currentTime - |networkData| + 1 + i
    {
      var newData := Advance(settings, d);
      var quality := CalculateMOS(newData.packetLoss, newData.latency as real, newData.jitter, settings.qosEnabled);
      callQuality := quality;
    }

    /** The start/stop button flips the running flag and changes nothing else. */
    method Toggle()
      modifies this`isRunning
      ensures isRunning == !old(isRunning)
      ensures old(Valid()) ==> Valid()
    {
      isRunning := !isRunning;
    }

    /** `reset`: stopped, counter 0, no history and the default quality, whatever came before. */
    method Reset()
      modifies this
      ensures Valid()
      ensures !isRunning && currentTime == 0 && networkData == []
      ensures callQuality == DefaultQuality
    {
      isRunning := false;
      currentTime := 0;
      networkData := [];
      callQuality := DefaultQuality;
      stream := [];
    }
  }
}
