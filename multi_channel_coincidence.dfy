/** The multi-channel coincidence processor: every hit of every event is kept, per
    channel, in a map that lives as long as the processor; for each configured
    (start, stop) channel pair the two kept lists are matched front to front by the
    window rule, and the start energy of every coincidence is recorded. */
module MultiChannelCoincidence {
  import opened Decimal
  import opened Xml
  import opened Coincidence

  /** allDataMap: hits per channel, keyed by the decimal rendering of the channel number. */
  type DataMap = map<string, seq<Reading>>

  /** The hits kept under `key`, none when the key is absent. */
  function Lookup(m: DataMap, key: string): seq<Reading> {
    if key in m then m[key] else []
  }

  /** `m[key]` used for reading (std::map::operator[]): a missing key gains an empty list. */
  function Touch(m: DataMap, key: string): (r: DataMap)
    ensures r.Keys == m.Keys + {key}
    ensures forall k :: k in m ==> r[k] == m[k]
    ensures forall k :: Lookup(r, k) == Lookup(m, k)
  {
    if key in m then m else m[key := []]
  }

  /** One hit appended under its channel's key. */
  function AddHit(m: DataMap, r: Reading): DataMap {
    var key := IntToString(r.channel);
    m[key := Lookup(m, key) + [r]]
  }

  /** The map after the hits of one event are added in event order. */
  function Accumulate(m: DataMap, rs: seq<Reading>): DataMap
    decreases |rs|
  {
    if rs == [] then m else Accumulate(AddHit(m, rs[0]), rs[1..])
  }

  /** The map after each configured pair's start and stop keys are read with operator[]. */
  function TouchAll(m: DataMap, channels: seq<(string, string)>): DataMap
    decreases |channels|
  {
    if channels == [] then m else TouchAll(Touch(Touch(m, channels[0].0), channels[0].1), channels[1..])
  }

  /** The values recorded for one configured pair: the start energy of every pair the
      window rule finds between the kept start and stop hits. */
  function PairRecorded(m: DataMap, c: (string, string), window: real): seq<real> {
    Energies(Firsts(WindowDrain(Lookup(m, c.0), Lookup(m, c.1), window).pairs))
  }

  /** The values recorded for all configured pairs, pair after pair. */
  function Recorded(m: DataMap, channels: seq<(string, string)>, window: real): seq<real>
    decreases |channels|
  {
    if channels == [] then [] else PairRecorded(m, channels[0], window) + Recorded(m, channels[1..], window)
  }

  /** The configured pairs: start and stop lists are paired index by index when both are
      non-empty and of the same length; otherwise there are none. */
  function ChannelPairs(startList: seq<string>, stopList: seq<string>): seq<(string, string)> {
    if startList != [] && stopList != [] && |startList| == |stopList| then
      seq(|startList|, i requires 0 <= i < |startList| => (startList[i], stopList[i]))
    else []
  }

  /** The constructor's loop over the start and stop lists. */
  method PairChannelLists(startList: seq<string>, stopList: seq<string>) returns (channels: seq<(string, string)>)
    ensures channels == ChannelPairs(startList, stopList)
    ensures channels != [] <==> startList != [] && |startList| == |stopList|
    ensures channels != [] ==> |channels| == |startList| &&
                               forall i :: 0 <= i < |channels| ==> channels[i] == (startList[i], stopList[i])
  {
    channels := [];
    if startList != [] && stopList != [] && |startList| == |stopList| {
      var i := 0;
      while i < |startList|
        invariant 0 <= i <= |startList|
        invariant channels == ChannelPairs(startList, stopList)[..i]
      {
        channels := channels + [(startList[i], stopList[i])];
        i := i + 1;
      }
    }
  }

  /** As written, setting up the output reads the first configured pair. */
  function BranchKeyAsWritten(channels: seq<(string, string)>): string
    requires |channels| > 0
  {
    channels[0].0 + " " + channels[0].1
  }

  /** The default constructor and a constructor given lists of different lengths (or an
      empty one) leave no configured pair, so the first-pair read is out of range. */
  lemma SetupRootOutputReadsMissingPair(startList: seq<string>, stopList: seq<string>)
    requires startList == [] || |startList| != |stopList|
    ensures !(|ChannelPairs(startList, stopList)| > 0)
  {
  }

  /** Setting up the output with the missing pair handled. */
  function BranchKey(channels: seq<(string, string)>): (key: Option<string>)
    ensures key.None? <==> channels == []
    ensures key.Some? ==> key.value == BranchKeyAsWritten(channels)
  {
    if channels == [] then None else Some(channels[0].0 + " " + channels[0].1)
  }

  class MultiChannelCoincidenceProcessor {
    var startStopChannels: seq<(string, string)>
    var allDataMap: DataMap
    var timeWindowInMs: real
    var associatedTypes: set<string>
    var branchKey: Option<string>

    /** The default processor: no configured pair, a 1 ms window. */
    constructor ()
      ensures startStopChannels == [] && allDataMap == map[] && timeWindowInMs == 1.0
      ensures associatedTypes == {"NaI"} && branchKey == None
    {
      startStopChannels, allDataMap, timeWindowInMs := [], map[], 1.0;
      associatedTypes := {"NaI"};
      branchKey := BranchKey([]);
    }

    constructor WithLists(startList: seq<string>, stopList: seq<string>, timeWindowInMs: real)
      ensures startStopChannels == ChannelPairs(startList, stopList)
      ensures allDataMap == map[] && this.timeWindowInMs == timeWindowInMs
      ensures associatedTypes == {"NaI"} && branchKey == BranchKey(startStopChannels)
    {
      var channels := PairChannelLists(startList, stopList);
      startStopChannels, allDataMap, this.timeWindowInMs := channels, map[], timeWindowInMs;
      associatedTypes := {"NaI"};
      branchKey := BranchKey(channels);
    }

    /** The window: the configured milliseconds times 1000, compared with the hit times
        as they are. */
    function TimeWindow(): real
      reads this
    {
      timeWindowInMs * 1000.0
    }

    /** Processes one raw event; `accepted` is the answer of the base
        EventProcessor::Process. The event's hits join the kept hits, and the recorded
        values are returned. */
    method Process(event: seq<Reading>, accepted: bool) returns (ok: bool, recorded: seq<real>)
      modifies this`allDataMap
      ensures ok == accepted
      ensures !accepted ==> recorded == [] && allDataMap == old(allDataMap)
      ensures accepted ==> allDataMap == TouchAll(Accumulate(old(allDataMap), event), startStopChannels)
      ensures accepted ==> recorded == Recorded(Accumulate(old(allDataMap), event), startStopChannels, TimeWindow())
    {
      if !accepted {
        return false, [];
      }
      KeepHits(event);
      recorded := MatchPairs(timeWindowInMs * 1000.0);
      ok := true;
    }

    /** The loop over the event: each hit is appended to the list kept under its
        channel's key, a new list being made for a key not yet present. */
    method KeepHits(event: seq<Reading>)
      modifies this`allDataMap
      ensures allDataMap == Accumulate(old(allDataMap), event)
    {
      ghost var m0 := allDataMap;
      var i := 0;
      while i < |event|
        invariant 0 <= i <= |event|
        invariant Accumulate(m0, event) == Accumulate(allDataMap, event[i..])
      {
        var r := event[i];
        var key := IntToString(r.channel);
        ghost var before := allDataMap;
        if key !in allDataMap {
          allDataMap := allDataMap[key := [r]];
          assert Lookup(before, key) + [r] == [r];
        } else {
          allDataMap := allDataMap[key := allDataMap[key] + [r]];
        }
        assert allDataMap == AddHit(before, r);
        assert event[i..][0] == r && event[i..][1..] == event[i + 1..];
        i := i + 1;
      }
      assert event[|event|..] == [];
    }

    /** `allDataMap[start]` and `allDataMap[stop]` copied out of the map. */
    method ReadPair(c: (string, string)) returns (data1: seq<Reading>, data2: seq<Reading>)
      modifies this`allDataMap
      ensures allDataMap == Touch(Touch(old(allDataMap), c.0), c.1)
      ensures data1 == Lookup(old(allDataMap), c.0) && data2 == Lookup(old(allDataMap), c.1)
    {
      if c.0 !in allDataMap {
        allDataMap := allDataMap[c.0 := []];
      }
      data1 := allDataMap[c.0];
      if c.1 !in allDataMap {
        allDataMap := allDataMap[c.1 := []];
      }
      data2 := allDataMap[c.1];
    }

    /** The loop over the configured pairs: the kept start and stop lists are read with
        operator[] and copied, and the copies are matched by the window rule. */
    method MatchPairs(window: real) returns (recorded: seq<real>)
      modifies this`allDataMap
      ensures allDataMap == TouchAll(old(allDataMap), startStopChannels)
      ensures recorded == Recorded(old(allDataMap), startStopChannels, window)
    {
      ghost var m1 := allDataMap;
      var channels := startStopChannels;
      recorded := [];
      var p := 0;
      while p < |channels|
        invariant 0 <= p <= |channels|
        invariant TouchAll(m1, channels) == TouchAll(allDataMap, channels[p..])
        invariant Recorded(m1, channels, window) == recorded + Recorded(m1, channels[p..], window)
        invariant forall k :: Lookup(allDataMap, k) == Lookup(m1, k)
      {
        var c := channels[p];
        TouchStep(allDataMap, channels, p);
        var data1, data2 := ReadPair(c);
        var d := DrainWithinWindow(data1, data2, window);
        MatchStep(m1, channels, p, window, recorded);
        recorded := recorded + Energies(Firsts(d.pairs));
        p := p + 1;
      }
      assert channels[|channels|..] == [];
    }
  }

  /** One round of the loop over the configured pairs: the values of pair p follow
      those recorded so far. */
  lemma MatchStep(m: DataMap, channels: seq<(string, string)>, p: int, window: real, recorded: seq<real>)
    requires 0 <= p < |channels|
    requires Recorded(m, channels, window) == recorded + Recorded(m, channels[p..], window)
    ensures Recorded(m, channels, window) ==
            (recorded + PairRecorded(m, channels[p], window)) + Recorded(m, channels[p + 1..], window)
  {
    var found, rest := PairRecorded(m, channels[p], window), Recorded(m, channels[p + 1..], window);
    assert Recorded(m, channels[p..], window) == found + rest by {
      assert channels[p..][0] == channels[p] && channels[p..][1..] == channels[p + 1..];
    }
    assert recorded + (found + rest) == (recorded + found) + rest;
  }

  /** One round of the loop over the configured pairs reads the start and stop keys of
      pair p. */
  lemma TouchStep(n: DataMap, channels: seq<(string, string)>, p: int)
    requires 0 <= p < |channels|
    ensures TouchAll(n, channels[p..]) == TouchAll(Touch(Touch(n, channels[p].0), channels[p].1), channels[p + 1..])
  {
    assert channels[p..][0] == channels[p] && channels[p..][1..] == channels[p + 1..];
  }

  /** After an event the hits kept for a channel are those kept before followed by the
      event's hits on that channel, in event order. */
  lemma {:induction false} AccumulateChannel(m: DataMap, rs: seq<Reading>, ch: int)
    ensures Lookup(Accumulate(m, rs), IntToString(ch)) == Lookup(m, IntToString(ch)) + Select(rs, ch)
    decreases |rs|
  {
    if rs != [] {
      AccumulateChannel(AddHit(m, rs[0]), rs[1..], ch);
      IntToStringInjective(rs[0].channel, ch);
    }
  }

  /** Keys are never removed and kept lists only grow: every list kept before an event
      is a prefix of the list kept after it. */
  lemma {:induction false} AccumulateGrows(m: DataMap, rs: seq<Reading>)
    ensures forall k :: k in m ==> k in Accumulate(m, rs) && m[k] <= Accumulate(m, rs)[k]
    decreases |rs|
  {
    if rs != [] {
      AccumulateGrows(AddHit(m, rs[0]), rs[1..]);
    }
  }

  /** A key gains an entry exactly when it is the rendering of a hit's channel. */
  lemma {:induction false} AccumulateKeys(m: DataMap, rs: seq<Reading>)
    ensures Accumulate(m, rs).Keys == m.Keys + set r | r in rs :: IntToString(r.channel)
    decreases |rs|
  {
    if rs != [] {
      AccumulateKeys(AddHit(m, rs[0]), rs[1..]);
      assert rs == [rs[0]] + rs[1..];
    }
  }

  /** The start and stop keys of the configured pairs. */
  function Names(channels: seq<(string, string)>): set<string>
    decreases |channels|
  {
    if channels == [] then {} else {channels[0].0, channels[0].1} + Names(channels[1..])
  }

  /** Reading the configured keys adds exactly the missing ones, each with an empty list,
      and changes no kept list. */
  lemma {:induction false} TouchAllSpec(m: DataMap, channels: seq<(string, string)>)
    ensures TouchAll(m, channels).Keys == m.Keys + Names(channels)
    ensures forall k :: k in m ==> TouchAll(m, channels)[k] == m[k]
    ensures forall k :: k in TouchAll(m, channels) && k !in m ==> TouchAll(m, channels)[k] == []
    decreases |channels|
  {
    if channels != [] {
      var m' := Touch(Touch(m, channels[0].0), channels[0].1);
      TouchAllSpec(m', channels[1..]);
      assert forall k :: k in m' && k !in m ==> m'[k] == [];
    }
  }

  /** Across a whole call the kept data only grows: every key survives, and every list
      kept before is a prefix of the list kept after. */
  lemma ProcessKeepsData(m: DataMap, event: seq<Reading>, channels: seq<(string, string)>)
    ensures var after := TouchAll(Accumulate(m, event), channels);
            forall k :: k in m ==> k in after && m[k] <= after[k]
  {
    AccumulateGrows(m, event);
    TouchAllSpec(Accumulate(m, event), channels);
  }

  /** For a configured pair there are at most as many coincidences as kept start hits
      and as kept stop hits. */
  lemma PairRecordedBounds(m: DataMap, c: (string, string), window: real)
    ensures |PairRecorded(m, c, window)| <= |Lookup(m, c.0)|
    ensures |PairRecorded(m, c, window)| <= |Lookup(m, c.1)|
  {
    WindowDrainCounts(Lookup(m, c.0), Lookup(m, c.1), window);
  }

  /** The values of the configured pairs are recorded pair after pair. */
  lemma {:induction false} RecordedSplit(m: DataMap, a: seq<(string, string)>, b: seq<(string, string)>, window: real)
    ensures Recorded(m, a + b, window) == Recorded(m, a, window) + Recorded(m, b, window)
    decreases |a|
  {
    if a != [] {
      RecordedSplit(m, a[1..], b, window);
      assert (a + b)[0] == a[0] && (a + b)[1..] == a[1..] + b;
      assert Recorded(m, a + b, window) == PairRecorded(m, a[0], window) + Recorded(m, a[1..] + b, window);
      assert Recorded(m, a, window) == PairRecorded(m, a[0], window) + Recorded(m, a[1..], window);
    } else {
      assert a + b == b;
    }
  }

  /** Each value recorded for a pair is the energy of a kept start hit lying within the
      window of a kept stop hit. */
  lemma PairRecordedOrigin(m: DataMap, c: (string, string), window: real, k: int) returns (i: int, j: int)
    requires 0 <= k < |PairRecorded(m, c, window)|
    ensures 0 <= i < |Lookup(m, c.0)| && 0 <= j < |Lookup(m, c.1)|
    ensures PairRecorded(m, c, window)[k] == Lookup(m, c.0)[i].energy
    ensures Within(Lookup(m, c.0)[i], Lookup(m, c.1)[j], window)
  {
    i, j := WindowDrainPairOrigin(Lookup(m, c.0), Lookup(m, c.1), window, k);
  }
}
