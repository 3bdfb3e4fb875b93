/** The time-difference processor: the hits of a start channel and a stop channel are
    matched front to front, and every start hit strictly earlier than the stop hit it
    meets gives a plotted time difference. Times are the high-resolution times in ns. */
module TimeDifference {
  import opened Numbers
  import opened Coincidence

  class TimeDifferenceProcessor {
    var ch1: int
    var ch2: int
    var timeWindowInMs: real
    var associatedTypes: set<string>

    /** The default processor: start channel 0, stop channel 1, a 1 ms window. */
    constructor ()
      ensures ch1 == 0 && ch2 == 1 && timeWindowInMs == 1.0
      ensures associatedTypes == {"NaI"}
    {
      ch1, ch2, timeWindowInMs := 0, 1, 1.0;
      associatedTypes := {"NaI"};
    }

    constructor WithChannels(ch1: int, ch2: int, timeWindowInMs: real)
      ensures this.ch1 == ch1 && this.ch2 == ch2 && this.timeWindowInMs == timeWindowInMs
      ensures associatedTypes == {"NaI"}
    {
      this.ch1, this.ch2, this.timeWindowInMs := ch1, ch2, timeWindowInMs;
      associatedTypes := {"NaI"};
    }

    /** Processes one raw event whose readings carry the high-resolution times;
        `accepted` is the answer of the base EventProcessor::Process. The window is not
        consulted. */
    method Process(event: seq<Reading>, accepted: bool) returns (ok: bool, plots: Plots)
      ensures ok == accepted
      ensures !accepted ==> plots == Plots([], [], [])
      ensures accepted ==> plots == DifferencePlots(event, ch1, ch2)
    {
      if !accepted {
        return false, Plots([], [], []);
      }
      var data1, data2, plots1, plots2 := Partition(event, ch1, ch2);
      var d := DrainStartFirst(data1, data2);
      return true, Plots(plots1, plots2, Differences(d.pairs));
    }
  }

  /** The plotted difference of each pair: stop time minus start time, truncated. */
  function Differences(ps: seq<(Hit<int>, Hit<int>)>): (ds: seq<int>)
    ensures |ds| == |ps|
    ensures forall k :: 0 <= k < |ps| ==> ds[k] == Trunc(ps[k].1.time - ps[k].0.time)
  {
    seq(|ps|, k requires 0 <= k < |ps| => Trunc(ps[k].1.time - ps[k].0.time))
  }

  /** The histograms of one accepted event: the truncated energies of the start and stop
      channels and one time difference per pair of the start-first rule. */
  function DifferencePlots(event: seq<Reading>, ch1: int, ch2: int): Plots {
    var data1 := Truncated(Select(event, ch1));
    var data2 := Truncated(Select(event, ch2));
    Plots(Energies(data1), Energies(data2), Differences(EarlierDrain(data1, data2).pairs))
  }

  /** Every plotted difference is non-negative (the start hit was strictly earlier), and
      there are at most as many differences as start hits and as stop hits. */
  lemma DifferencesNonNegative(event: seq<Reading>, ch1: int, ch2: int)
    ensures var p := DifferencePlots(event, ch1, ch2);
            && (forall k :: 0 <= k < |p.matched| ==> p.matched[k] >= 0)
            && |p.matched| <= |Select(event, ch1)| && |p.matched| <= |Select(event, ch2)|
  {
    EarlierDrainCounts(Truncated(Select(event, ch1)), Truncated(Select(event, ch2)));
    EarlierDrainForward(Truncated(Select(event, ch1)), Truncated(Select(event, ch2)));
  }

  /** Each plotted difference is that of a ch1 hit strictly before a ch2 hit. */
  lemma DifferenceOrigin(event: seq<Reading>, ch1: int, ch2: int, k: int) returns (i: int, j: int)
    requires 0 <= k < |DifferencePlots(event, ch1, ch2).matched|
    ensures 0 <= i < |Select(event, ch1)| && 0 <= j < |Select(event, ch2)|
    ensures Select(event, ch1)[i].time < Select(event, ch2)[j].time
    ensures DifferencePlots(event, ch1, ch2).matched[k] == Trunc(Select(event, ch2)[j].time - Select(event, ch1)[i].time)
  {
    var starts, stops := Select(event, ch1), Select(event, ch2);
    var data1, data2 := Truncated(starts), Truncated(stops);
    i, j := EarlierDrainPairOrigin(data1, data2, k);
  }
}
