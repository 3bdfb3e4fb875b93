/** The raw-event data model: the channel identifier, one channel's event, the summary
    of all channels of one detector type, and the raw event that holds them. The
    setters overwrite one field in place and the getters read it back. */
module RawEvents {

  /** Basic channel information: detector type and subtype, the damm spectrum number
      and the physical location. */
  class Identifier {
    var detectorType: string
    var subtype: string
    var dammId: int
    var location: int

    /** An identifier with the given fields. */
    constructor (detectorType: string, subtype: string, dammId: int, location: int)
      ensures this.detectorType == detectorType && this.subtype == subtype
      ensures this.dammId == dammId && this.location == location
    {
      this.detectorType := detectorType;
      this.subtype := subtype;
      this.dammId := dammId;
      this.location := location;
    }

    function GetDammId(): int reads this { dammId }
    function GetType(): string reads this { detectorType }
    function GetSubtype(): string reads this { subtype }
    function GetLocation(): int reads this { location }

    method SetDammId(a: int)
      modifies this`dammId
      ensures GetDammId() == a
    {
      dammId := a;
    }

    method SetType(a: string)
      modifies this`detectorType
      ensures GetType() == a
    {
      detectorType := a;
    }

    method SetSubtype(a: string)
      modifies this`subtype
      ensures GetSubtype() == a
    {
      subtype := a;
    }

    method SetLocation(a: int)
      modifies this`location
      ensures GetLocation() == a
    {
      location := a;
    }

    /** operator==: type, subtype and location agree; the damm number is not compared. */
    predicate Equals(x: Identifier)
      reads this, x
    {
      detectorType == x.detectorType && subtype == x.subtype && location == x.location
    }
  }

  /** Identifier equality is an equivalence relation. */
  lemma IdentifierEqualsIsEquivalence(a: Identifier, b: Identifier, c: Identifier)
    ensures a.Equals(a)
    ensures a.Equals(b) ==> b.Equals(a)
    ensures a.Equals(b) && b.Equals(c) ==> a.Equals(c)
  {
  }

  /** Changing the damm number leaves every equality with an identifier as it was. */
  method SetDammIdKeepsEquality(a: Identifier, b: Identifier, damm: int)
    modifies a
    ensures a.Equals(b) == old(a.Equals(b))
    ensures a.GetDammId() == damm
  {
    a.SetDammId(damm);
  }

  /** One channel that fired: its energies, times, trace and trace-analysis values. */
  class ChanEvent {
    var energy: real
    var calEnergy: real
    var calTime: real
    var traceInfo: seq<real>
    var trace: seq<int>
    var trigTime: nat
    var eventTimeLo: nat
    var eventTimeHi: nat
    var runTime0: nat
    var runTime1: nat
    var runTime2: nat
    var time: real
    var modNum: int
    var chanNum: int

    /** The front end sets the read-out fields of a new channel event directly; the
        calibrated values start at 0 and no trace analysis has been added yet. */
    constructor (energy: real, time: real, trace: seq<int>, trigTime: nat, eventTimeLo: nat, eventTimeHi: nat,
                 runTime0: nat, runTime1: nat, runTime2: nat, modNum: int, chanNum: int)
      ensures this.energy == energy && this.time == time && this.trace == trace
      ensures this.trigTime == trigTime && this.eventTimeLo == eventTimeLo && this.eventTimeHi == eventTimeHi
      ensures this.runTime0 == runTime0 && this.runTime1 == runTime1 && this.runTime2 == runTime2
      ensures this.modNum == modNum && this.chanNum == chanNum
      ensures calEnergy == 0.0 && calTime == 0.0 && traceInfo == []
    {
      this.energy := energy;
      this.time := time;
      this.trace := trace;
      this.trigTime := trigTime;
      this.eventTimeLo := eventTimeLo;
      this.eventTimeHi := eventTimeHi;
      this.runTime0 := runTime0;
      this.runTime1 := runTime1;
      this.runTime2 := runTime2;
      this.modNum := modNum;
      this.chanNum := chanNum;
      calEnergy := 0.0;
      calTime := 0.0;
      traceInfo := [];
    }

    function GetEnergy(): real reads this { energy }
    function GetCalEnergy(): real reads this { calEnergy }
    function GetTime(): real reads this { time }
    function GetCalTime(): real reads this { calTime }
    function GetTraceRef(): seq<int> reads this { trace }
    function GetTrigTime(): nat reads this { trigTime }
    function GetEventTimeLo(): nat reads this { eventTimeLo }
    function GetEventTimeHi(): nat reads this { eventTimeHi }
    function GetRunTime0(): nat reads this { runTime0 }
    function GetRunTime1(): nat reads this { runTime1 }
    function GetRunTime2(): nat reads this { runTime2 }

    method SetEnergy(a: real)
      modifies this`energy
      ensures GetEnergy() == a
    {
      energy := a;
    }

    method SetCalEnergy(a: real)
      modifies this`calEnergy
      ensures GetCalEnergy() == a
    {
      calEnergy := a;
    }

    method SetTime(a: real)
      modifies this`time
      ensures GetTime() == a
    {
      time := a;
    }

    method SetCalTime(a: real)
      modifies this`calTime
      ensures GetCalTime() == a
    {
      calTime := a;
    }

    /** Appends one trace-analysis value; the earlier values stay where they were. */
    method AddTraceInfo(a: real)
      modifies this`traceInfo
      ensures traceInfo == old(traceInfo) + [a]
      ensures |traceInfo| == |old(traceInfo)| + 1 && GetTraceInfo(|traceInfo| - 1) == a
      ensures forall i :: 0 <= i < |old(traceInfo)| ==> GetTraceInfo(i) == old(traceInfo)[i]
    {
      traceInfo := traceInfo + [a];
    }

    /** The a-th trace-analysis value. */
    function GetTraceInfo(a: nat): real
      requires a < |traceInfo|
      reads this
    {
      traceInfo[a]
    }

    /** The channel id, pixie module number * 16 + channel number. For a channel number
        below 16 the module and channel are read back from it. */
    function GetId(): (id: int)
      reads this
      ensures 0 <= chanNum < 16 ==> id / 16 == modNum && id % 16 == chanNum
    {
      modNum * 16 + chanNum
    }
  }

  /** Two channels on 16-channel modules have the same id exactly when they share module
      and channel. */
  lemma GetIdIdentifiesChannel(a: ChanEvent, b: ChanEvent)
    requires 0 <= a.chanNum < 16 && 0 <= b.chanNum < 16
    ensures a.GetId() == b.GetId() <==> a.modNum == b.modNum && a.chanNum == b.chanNum
  {
  }

  /** The event of `es` with the largest calibrated energy, the earliest one on a tie, or
      null for no events: the maximum as AddEvent keeps it one event at a time. */
  function MaxByCalEnergy(es: seq<ChanEvent>): (r: ChanEvent?)
    reads set e | e in es
    ensures r == null || r in es
  {
    if es == [] then null
    else
      var m := MaxByCalEnergy(es[..|es| - 1]);
      var e := es[|es| - 1];
      assert m == null || m in es;
      if m == null || e.calEnergy > m.calEnergy then e else m
  }

  /** The maximum is one of the events, no event has a larger calibrated energy, and no
      earlier event has the same one. It is null only for an empty list. */
  lemma {:induction false} MaxByCalEnergySpec(es: seq<ChanEvent>)
    ensures MaxByCalEnergy(es) == null <==> es == []
    ensures MaxByCalEnergy(es) != null ==>
              exists k :: 0 <= k < |es| && es[k] == MaxByCalEnergy(es) &&
                          (forall j :: 0 <= j < |es| ==> es[j].calEnergy <= es[k].calEnergy) &&
                          (forall j :: 0 <= j < k ==> es[j].calEnergy < es[k].calEnergy)
  {
    if es != [] {
      var init := es[..|es| - 1];
      MaxByCalEnergySpec(init);
      var m := MaxByCalEnergy(init);
      var last := |es| - 1;
      if m == null {
        assert init == [];
        assert IsFirstMax(es, 0);
      } else {
        var k :| 0 <= k < |init| && init[k] == m &&
                 (forall j :: 0 <= j < |init| ==> init[j].calEnergy <= init[k].calEnergy) &&
                 (forall j :: 0 <= j < k ==> init[j].calEnergy < init[k].calEnergy);
        assert forall j :: 0 <= j < |init| ==> es[j] == init[j];
        if es[last].calEnergy > m.calEnergy {
          assert IsFirstMax(es, last);
        } else {
          assert IsFirstMax(es, k);
        }
      }
    }
  }

  /** es[k] has the largest calibrated energy, and every earlier one a smaller one. */
  ghost predicate IsFirstMax(es: seq<ChanEvent>, k: int)
    requires 0 <= k < |es|
    reads set e | e in es
  {
    (forall j :: 0 <= j < |es| ==> es[j].calEnergy <= es[k].calEnergy) &&
    (forall j :: 0 <= j < k ==> es[j].calEnergy < es[k].calEnergy)
  }

  /** The channels of one detector type in the current event, with their multiplicity
      and the channel that took the most energy. */
  class DetectorSummary {
    var name: string
    var eventList: seq<ChanEvent>
    var maxEvent: ChanEvent?

    /** The max event is the maximum of the list, as long as no listed energy changes. */
    predicate Valid()
      reads this, set e | e in eventList
    {
      maxEvent == MaxByCalEnergy(eventList)
    }

    constructor ()
      ensures Valid() && name == "" && eventList == []
    {
      name := "";
      eventList := [];
      maxEvent := null;
    }

    /** Forgets the events of the previous raw event; the name stays. */
    method Zero()
      modifies this
      ensures Valid() && eventList == [] && name == old(name)
      ensures GetMult() == 0 && GetMaxEvent() == null
    {
      eventList := [];
      maxEvent := null;
    }

    /** Adds a channel to the summary and keeps the max event up to date. */
    method AddEvent(ev: ChanEvent)
      requires Valid()
      modifies this
      ensures Valid()
      ensures eventList == old(eventList) + [ev] && name == old(name)
      ensures GetMult() == old(GetMult()) + 1
      ensures GetMaxEvent() != null && GetMaxEvent().calEnergy >= ev.calEnergy
    {
      eventList := eventList + [ev];
      if maxEvent == null || ev.calEnergy > maxEvent.calEnergy {
        maxEvent := ev;
      }
      assert eventList[..|eventList| - 1] == old(eventList);
    }

    method SetName(a: string)
      modifies this`name
      ensures GetName() == a
    {
      name := a;
    }

    function GetMaxEvent(): ChanEvent? reads this { maxEvent }
    function GetName(): string reads this { name }
    function GetList(): seq<ChanEvent> reads this { eventList }

    /** The multiplicity: the number of channels of this type in the event. */
    function GetMult(): int reads this { |eventList| }
  }

  /** In a valid summary the max event is a listed channel whose calibrated energy no
      other listed channel exceeds, and there is one exactly when the multiplicity is
      positive. */
  lemma SummaryMaxEvent(d: DetectorSummary)
    requires d.Valid()
    ensures d.GetMaxEvent() == null <==> d.GetMult() == 0
    ensures d.GetMaxEvent() != null ==>
              d.GetMaxEvent() in d.GetList() &&
              forall e :: e in d.GetList() ==> e.calEnergy <= d.GetMaxEvent().calEnergy
  {
    MaxByCalEnergySpec(d.eventList);
  }

  /** The channels that are close enough in time to be one event, the summaries per
      detector type and the set of detector types in use. */
  class RawEvent {
    var usedDetectors: set<string>
    var sumMap: map<string, DetectorSummary>
    var eventList: seq<ChanEvent>

    constructor ()
      ensures usedDetectors == {} && sumMap == map[] && eventList == []
    {
      usedDetectors := {};
      sumMap := map[];
      eventList := [];
    }

    function GetUsedDetectors(): set<string> reads this { usedDetectors }
    function GetEventList(): seq<ChanEvent> reads this { eventList }

    /** Appends a channel to the event. */
    method AddChan(event: ChanEvent)
      modifies this
      ensures GetEventList() == old(GetEventList()) + [event]
      ensures usedDetectors == old(usedDetectors) && sumMap == old(sumMap)
    {
      eventList := eventList + [event];
    }

    /** The number of channels in the event. */
    function Size(): nat reads this { |eventList| }
  }
}
