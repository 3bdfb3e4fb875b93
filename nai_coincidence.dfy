/** The NaI coincidence processor: the hits of a start channel and a stop channel are
    matched front to front, and a pair whose times differ by less than the window is a
    coincidence whose start energy is plotted. Times are in clock ticks. */
module NaICoincidence {
  import opened Numbers
  import opened Coincidence

  /** Clock ticks in one millisecond (250 * 10^3). */
  const TicksPerMs: real := 250000.0

  /** Number of bins of the coincidence histogram (2^14). */
  const CoincidenceRange: int := 16384

  class NaICoincidenceProcessor {
    var ch1: int
    var ch2: int
    var timeWindowInMs: real
    var associatedTypes: set<string>

    /** The default processor: start and stop are both channel 1, the window 1 ms. */
    constructor ()
      ensures ch1 == 1 && ch2 == 1 && timeWindowInMs == 1.0
      ensures associatedTypes == {"NaI"}
    {
      ch1, ch2, timeWindowInMs := 1, 1, 1.0;
      associatedTypes := {"NaI"};
    }

    constructor WithChannels(ch1: int, ch2: int, timeWindowInMs: real)
      ensures this.ch1 == ch1 && this.ch2 == ch2 && this.timeWindowInMs == timeWindowInMs
      ensures associatedTypes == {"NaI"}
    {
      this.ch1, this.ch2, this.timeWindowInMs := ch1, ch2, timeWindowInMs;
      associatedTypes := {"NaI"};
    }

    /** The window in clock ticks. */
    function TimeWindow(): real
      reads this
    {
      timeWindowInMs * TicksPerMs
    }

    /** Processes one raw event. `accepted` is what the base EventProcessor::Process
        answers; when it refuses the event nothing is plotted. */
    method Process(event: seq<Reading>, accepted: bool) returns (ok: bool, plots: Plots)
      ensures ok == accepted
      ensures !accepted ==> plots == Plots([], [], [])
      ensures accepted ==> plots == NaIPlots(event, ch1, ch2, TimeWindow())
    {
      if !accepted {
        return false, Plots([], [], []);
      }
      var window := timeWindowInMs * TicksPerMs;
      var data1, data2, plots1, plots2 := Partition(event, ch1, ch2);
      var d := DrainWithinWindow(data1, data2, window);
      return true, Plots(plots1, plots2, KeepIf(Energies(Firsts(d.pairs)), EnergyGuardAsWritten));
    }
  }

  /** The histograms of one accepted event: the truncated energies of the start and stop
      channels, and the start energy of every coincident pair the window rule finds that
      passes the garbage-data guard. */
  function NaIPlots(event: seq<Reading>, ch1: int, ch2: int, window: real): Plots {
    var data1 := Truncated(Select(event, ch1));
    var data2 := Truncated(Select(event, ch2));
    Plots(Energies(data1), Energies(data2),
          KeepIf(Energies(Firsts(WindowDrain(data1, data2, window).pairs)), EnergyGuardAsWritten))
  }

  /** The energies that pass the guard `g`, in order. */
  function KeepIf(es: seq<int>, g: int -> bool): (r: seq<int>)
    ensures |r| <= |es|
    ensures forall k :: 0 <= k < |r| ==> g(r[k])
    ensures IsSubseq(r, es)
  {
    if es == [] then []
    else if g(es[0]) then
      var rest := KeepIf(es[1..], g);
      assert ([es[0]] + rest)[1..] == rest;
      [es[0]] + rest
    else
      var rest := KeepIf(es[1..], g);
      SubseqOfTail(rest, es);
      rest
  }

  /** The garbage-data guard as written: a disjunction that every energy passes. */
  predicate EnergyGuardAsWritten(e: int) {
    e < CoincidenceRange || e >= 0
  }

  /** As written the guard drops nothing: every coincidence is plotted. */
  lemma {:induction false} GuardAsWrittenKeepsAll(es: seq<int>)
    ensures KeepIf(es, EnergyGuardAsWritten) == es
    decreases |es|
  {
    if es != [] {
      GuardAsWrittenKeepsAll(es[1..]);
      assert EnergyGuardAsWritten(es[0]);
    }
  }

  /** A hit is plotted on its channel's histogram exactly when it is on that channel, and
      there are at most as many coincidences as hits on either channel. */
  lemma NaIPlotCounts(event: seq<Reading>, ch1: int, ch2: int, window: real)
    ensures var p := NaIPlots(event, ch1, ch2, window);
            && |p.ch1| == |Select(event, ch1)| && |p.ch2| == |Select(event, ch2)|
            && |p.matched| <= |p.ch1| && |p.matched| <= |p.ch2|
  {
    WindowDrainCounts(Truncated(Select(event, ch1)), Truncated(Select(event, ch2)), window);
  }

  /** Each plotted coincidence is the truncated energy of a ch1 hit lying within the
      window of a ch2 hit. */
  lemma NaIMatchedAreCoincidences(event: seq<Reading>, ch1: int, ch2: int, window: real, k: int)
      returns (i: int, j: int)
    requires 0 <= k < |NaIPlots(event, ch1, ch2, window).matched|
    ensures 0 <= i < |Select(event, ch1)| && 0 <= j < |Select(event, ch2)|
    ensures NaIPlots(event, ch1, ch2, window).matched[k] == Trunc(Select(event, ch1)[i].energy)
    ensures Abs(Select(event, ch1)[i].time - Select(event, ch2)[j].time) < window
  {
    var starts, stops := Select(event, ch1), Select(event, ch2);
    var data1, data2 := Truncated(starts), Truncated(stops);
    var ps := WindowDrain(data1, data2, window).pairs;
    GuardAsWrittenKeepsAll(Energies(Firsts(ps)));
    assert NaIPlots(event, ch1, ch2, window).matched[k] == ps[k].0.energy;
    i, j := WindowDrainPairOrigin(data1, data2, window, k);
    assert NaIPlots(event, ch1, ch2, window).matched[k] == Trunc(starts[i].energy);
    assert Abs(starts[i].time - stops[j].time) < window;
  }

  /** With start and stop on the same channel (the default processor) and a positive
      window, every hit is a coincidence with itself: every start energy is plotted. */
  lemma NaISameChannel(event: seq<Reading>, ch: int, window: real)
    requires window > 0.0
    ensures NaIPlots(event, ch, ch, window).matched == NaIPlots(event, ch, ch, window).ch1
  {
    var data := Truncated(Select(event, ch));
    WindowDrainSameList(data, window);
    GuardAsWrittenKeepsAll(Energies(Firsts(WindowDrain(data, data, window).pairs)));
  }

  /** The guard lets through energies below 0 and at or above the histogram range. */
  lemma GarbageEnergiesPassGuard()
    ensures EnergyGuardAsWritten(-1) && EnergyGuardAsWritten(CoincidenceRange)
    ensures !EnergyGuard(-1) && !EnergyGuard(CoincidenceRange)
  {
  }

  /** The guard as intended: the energy is a bin of the coincidence histogram. */
  predicate EnergyGuard(e: int) {
    0 <= e < CoincidenceRange
  }

  /** The histograms with the intended guard: only coincidences that fall inside the
      histogram are plotted, in the order found. */
  function NaIPlotsCorrected(event: seq<Reading>, ch1: int, ch2: int, window: real): (p: Plots)
    ensures p.ch1 == NaIPlots(event, ch1, ch2, window).ch1
    ensures p.ch2 == NaIPlots(event, ch1, ch2, window).ch2
    ensures forall k :: 0 <= k < |p.matched| ==> 0 <= p.matched[k] < CoincidenceRange
    ensures IsSubseq(p.matched, NaIPlots(event, ch1, ch2, window).matched)
  {
    var data1 := Truncated(Select(event, ch1));
    var data2 := Truncated(Select(event, ch2));
    var es := Energies(Firsts(WindowDrain(data1, data2, window).pairs));
    GuardAsWrittenKeepsAll(es);
    Plots(Energies(data1), Energies(data2), KeepIf(es, EnergyGuard))
  }
}
