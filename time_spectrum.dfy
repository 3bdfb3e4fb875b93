/** The time-spectrum generator: while the raw event is read, the times of the start and
    stop channels are buffered; as soon as both buffers hold a time, the latest start and
    the latest stop (shifted by a 300 ns cable delay) are emitted as one coincidence and
    both buffers are cleared. Times are the channel times in 8 ns clock ticks. */
module TimeSpectrum {
  import opened Numbers
  import opened Coincidence

  /** Nanoseconds per system clock tick. */
  const NsPerTick: real := 8.0

  /** The delay subtracted from every stop time, in ns. */
  const StopDelay: real := 300.0

  /** One filled tree entry: start time, delayed stop time and their difference. */
  datatype Emission = Emission(tStart: real, tStop: real, tDiff: real)

  /** What one event plots and emits: the truncated energies of the start and stop
      channels and the coincidences, in the order emitted. */
  datatype Spectrum = Spectrum(ch1: seq<int>, ch2: seq<int>, emissions: seq<Emission>)

  /** The state of the loop over the event: the two time buffers and the output so far. */
  datatype Pass = Pass(data1: seq<real>, data2: seq<real>, out: Spectrum)

  /** The value plotted on the time-spectrum histogram for an emission. */
  function CoincidenceValue(e: Emission): real {
    StopDelay + e.tDiff
  }

  /** The emission made from the latest start time and the latest stop time. */
  function Emit(data1: seq<real>, data2: seq<real>): Emission
    requires data1 != [] && data2 != []
  {
    var tStart := data1[|data1| - 1];
    var tStop := data2[|data2| - 1] - StopDelay;
    Emission(tStart, tStop, tStop - tStart)
  }

  /** One hit of the event: its time is buffered and its truncated energy plotted on the
      histogram of each channel it is on; then, when both buffers hold a time, one
      emission is made and both buffers are cleared. */
  function Step(p: Pass, r: Reading, ch1: int, ch2: int): Pass {
    var time := r.time * NsPerTick;
    var d1 := if r.channel == ch1 then p.data1 + [time] else p.data1;
    var d2 := if r.channel == ch2 then p.data2 + [time] else p.data2;
    var plot1 := if r.channel == ch1 then p.out.ch1 + [Trunc(r.energy)] else p.out.ch1;
    var plot2 := if r.channel == ch2 then p.out.ch2 + [Trunc(r.energy)] else p.out.ch2;
    if d1 != [] && d2 != [] then Pass([], [], Spectrum(plot1, plot2, p.out.emissions + [Emit(d1, d2)]))
    else Pass(d1, d2, Spectrum(plot1, plot2, p.out.emissions))
  }

  /** The loop state after the hits of `event` have been read in order. */
  function PassOver(event: seq<Reading>, ch1: int, ch2: int): Pass
    decreases |event|
  {
    if event == [] then Pass([], [], Spectrum([], [], []))
    else Step(PassOver(event[..|event| - 1], ch1, ch2), event[|event| - 1], ch1, ch2)
  }

  /** What the generator plots and emits for one accepted event. */
  function Generated(event: seq<Reading>, ch1: int, ch2: int): Spectrum {
    PassOver(event, ch1, ch2).out
  }

  class TimeSpectrumGenerator {
    var ch1: int
    var ch2: int
    var associatedTypes: set<string>

    /** The default generator: start channel 0, stop channel 1. */
    constructor ()
      ensures ch1 == 0 && ch2 == 1 && associatedTypes == {"NaI"}
    {
      ch1, ch2 := 0, 1;
      associatedTypes := {"NaI"};
    }

    constructor WithChannels(ch1: int, ch2: int)
      ensures this.ch1 == ch1 && this.ch2 == ch2 && associatedTypes == {"NaI"}
    {
      this.ch1, this.ch2 := ch1, ch2;
      associatedTypes := {"NaI"};
    }

    /** Processes one raw event; `accepted` is the answer of the base
        EventProcessor::Process. */
    method Process(event: seq<Reading>, accepted: bool) returns (ok: bool, spectrum: Spectrum)
      ensures ok == accepted
      ensures !accepted ==> spectrum == Spectrum([], [], [])
      ensures accepted ==> spectrum == Generated(event, ch1, ch2)
    {
      if !accepted {
        return false, Spectrum([], [], []);
      }
      var data1: seq<real>, data2: seq<real> := [], [];
      var plot1: seq<int>, plot2: seq<int> := [], [];
      var emissions: seq<Emission> := [];
      for i := 0 to |event|
        invariant PassOver(event[..i], ch1, ch2) == Pass(data1, data2, Spectrum(plot1, plot2, emissions))
      {
        var r := event[i];
        var time := r.time * NsPerTick;
        if r.channel == ch1 {
          data1 := data1 + [time];
          plot1 := plot1 + [Trunc(r.energy)];
        }
        if r.channel == ch2 {
          data2 := data2 + [time];
          plot2 := plot2 + [Trunc(r.energy)];
        }
        data1, data2, emissions := Flush(data1, data2, emissions);
        PassOverStep(event, i, ch1, ch2);
      }
      assert event[..|event|] == event;
      return true, Spectrum(plot1, plot2, emissions);
    }

    /** The inner loop: while both buffers hold a time, the latest start and the latest
        delayed stop are emitted and both buffers cleared, so it runs at most once. */
    method Flush(data1: seq<real>, data2: seq<real>, emissions: seq<Emission>)
        returns (data1': seq<real>, data2': seq<real>, emissions': seq<Emission>)
      ensures data1 != [] && data2 != [] ==>
                data1' == [] && data2' == [] && emissions' == emissions + [Emit(data1, data2)]
      ensures !(data1 != [] && data2 != []) ==>
                data1' == data1 && data2' == data2 && emissions' == emissions
    {
      data1', data2', emissions' := data1, data2, emissions;
      while |data1'| > 0 && |data2'| > 0
        invariant (data1' == data1 && data2' == data2 && emissions' == emissions) ||
                  (data1' == [] && data2' == [] && data1 != [] && data2 != [] && emissions' == emissions + [Emit(data1, data2)])
        decreases |data1'|
      {
        var tStart := data1'[|data1'| - 1];
        var tStop := data2'[|data2'| - 1] - StopDelay;
        var tDiff := tStop - tStart;
        emissions' := emissions' + [Emission(tStart, tStop, tDiff)];
        data1' := [];
        data2' := [];
      }
    }
  }

  /** Reading one more hit is one more step. */
  lemma PassOverStep(event: seq<Reading>, i: int, ch1: int, ch2: int)
    requires 0 <= i < |event|
    ensures PassOver(event[..i + 1], ch1, ch2) == Step(PassOver(event[..i], ch1, ch2), event[i], ch1, ch2)
  {
    assert event[..i + 1][..i] == event[..i];
  }

  /** Each hit adds at most one emission and keeps the earlier ones; afterwards at least
      one buffer is empty. */
  lemma StepEmitsAtMostOnce(p: Pass, r: Reading, ch1: int, ch2: int)
    ensures var q := Step(p, r, ch1, ch2);
            && |p.out.emissions| <= |q.out.emissions| <= |p.out.emissions| + 1
            && q.out.emissions[..|p.out.emissions|] == p.out.emissions
            && (q.data1 == [] || q.data2 == [])
  {
    var q := Step(p, r, ch1, ch2);
    if |q.out.emissions| > |p.out.emissions| {
      assert (p.out.emissions + [q.out.emissions[|p.out.emissions|]])[..|p.out.emissions|] == p.out.emissions;
    }
  }

  /** The channel histograms hold the truncated energy of every hit on the channel, in
      event order. */
  lemma {:induction false} ChannelPlots(event: seq<Reading>, ch1: int, ch2: int)
    ensures Generated(event, ch1, ch2).ch1 == Energies(Truncated(Select(event, ch1)))
    ensures Generated(event, ch1, ch2).ch2 == Energies(Truncated(Select(event, ch2)))
    decreases |event|
  {
    if event != [] {
      var init, r := event[..|event| - 1], event[|event| - 1];
      ChannelPlots(init, ch1, ch2);
      assert event == init + [r];
      SelectSnoc(init, r, ch1);
      SelectSnoc(init, r, ch2);
      TruncatedEnergiesSnoc(Select(init, ch1), r);
      TruncatedEnergiesSnoc(Select(init, ch2), r);
    }
  }

  lemma TruncatedEnergiesSnoc(rs: seq<Reading>, r: Reading)
    ensures Energies(Truncated(rs + [r])) == Energies(Truncated(rs)) + [Trunc(r.energy)]
  {
  }

  /** Every emission uses up a buffered start time and a buffered stop time: there are
      no more emissions than hits on either channel. */
  lemma {:induction false} EmissionCount(event: seq<Reading>, ch1: int, ch2: int)
    ensures |Generated(event, ch1, ch2).emissions| + |PassOver(event, ch1, ch2).data1| <= |Select(event, ch1)|
    ensures |Generated(event, ch1, ch2).emissions| + |PassOver(event, ch1, ch2).data2| <= |Select(event, ch2)|
    ensures |Generated(event, ch1, ch2).emissions| <= |Select(event, ch1)|
    ensures |Generated(event, ch1, ch2).emissions| <= |Select(event, ch2)|
    decreases |event|
  {
    if event != [] {
      var init, r := event[..|event| - 1], event[|event| - 1];
      EmissionCount(init, ch1, ch2);
      assert event == init + [r];
      SelectSnoc(init, r, ch1);
      SelectSnoc(init, r, ch2);
    }
  }

  /** With start and stop on the same channel every hit on it is emitted at once as a
      coincidence with itself: the difference is minus the delay and the plotted value 0. */
  lemma {:induction false} SameChannelSpectrum(event: seq<Reading>, ch: int)
    ensures PassOver(event, ch, ch).data1 == [] && PassOver(event, ch, ch).data2 == []
    ensures |Generated(event, ch, ch).emissions| == |Select(event, ch)|
    ensures forall k :: 0 <= k < |Generated(event, ch, ch).emissions| ==>
              Generated(event, ch, ch).emissions[k].tDiff == -StopDelay &&
              CoincidenceValue(Generated(event, ch, ch).emissions[k]) == 0.0
    decreases |event|
  {
    if event != [] {
      var init, r := event[..|event| - 1], event[|event| - 1];
      SameChannelSpectrum(init, ch);
      assert event == init + [r];
      SelectSnoc(init, r, ch);
    }
  }

  /** A buffered start (stop) time is the time of an earlier hit on the start (stop)
      channel, the latest one being at the end of the buffer. */
  lemma {:induction false} BufferOrigin(event: seq<Reading>, ch1: int, ch2: int, first: bool) returns (i: int)
    requires var p := PassOver(event, ch1, ch2); if first then p.data1 != [] else p.data2 != []
    ensures 0 <= i < |event|
    ensures event[i].channel == (if first then ch1 else ch2)
    ensures var p := PassOver(event, ch1, ch2);
            (if first then p.data1[|p.data1| - 1] else p.data2[|p.data2| - 1]) == event[i].time * NsPerTick
    decreases |event|
  {
    var init, r := event[..|event| - 1], event[|event| - 1];
    var ch := if first then ch1 else ch2;
    if r.channel == ch {
      i := |event| - 1;
    } else {
      i := BufferOrigin(init, ch1, ch2, first);
    }
  }

  /** Emission k is made at hit n from the latest buffered start time, that of hit i on
      the start channel, and the latest buffered stop time, that of hit j on the stop
      channel; hit n is one of the two. The plotted value is the time from start to stop
      in ns. */
  lemma {:induction false} EmissionOrigin(event: seq<Reading>, ch1: int, ch2: int, k: int) returns (n: int, i: int, j: int)
    requires 0 <= k < |Generated(event, ch1, ch2).emissions|
    ensures 0 <= i <= n < |event| && 0 <= j <= n
    ensures i == n || j == n
    ensures event[i].channel == ch1 && event[j].channel == ch2
    ensures var e := Generated(event, ch1, ch2).emissions[k];
            e.tStart == event[i].time * NsPerTick &&
            e.tStop == event[j].time * NsPerTick - StopDelay &&
            CoincidenceValue(e) == (event[j].time - event[i].time) * NsPerTick
    decreases |event|
  {
    var init, r := event[..|event| - 1], event[|event| - 1];
    var p := PassOver(init, ch1, ch2);
    if k < |p.out.emissions| {
      n, i, j := EmissionOrigin(init, ch1, ch2, k);
    } else {
      n := |event| - 1;
      if r.channel == ch1 {
        i := n;
      } else {
        i := BufferOrigin(init, ch1, ch2, true);
      }
      if r.channel == ch2 {
        j := n;
      } else {
        j := BufferOrigin(init, ch1, ch2, false);
      }
    }
  }
}
