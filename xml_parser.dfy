/** The utkscan configuration parser (XmlParser): reads the nodes of the configuration
    document, applies defaults for optional children, throws for missing critical
    children, and writes the results into Globals.

    Each ParseXNode method updates Globals in place, as the source does through setters;
    its postcondition ties the new Globals and the outcome to a pure step function over
    a Settings snapshot (XStep), and the lemmas state what the steps promise. Logging
    (messenger_, sstream_) is not modelled; the names of unknown children that the
    parser would log are returned instead. */
module XmlParser {
  import opened Xml
  import opened Numbers
  import opened Configuration
  import Decimal

  /** The messages the parser throws; Text gives each one's wording. */
  datatype Message =
    | CriticalNode(name: string)
    | UnknownRevision(revision: string)
    | BadRejectRegion(start: int, end: int)

  /** What the parser throws: std::invalid_argument, or (in one place) a bare std::string. */
  datatype Failure = InvalidArgument(message: Message) | StringThrown(message: Message)

  /** The outcome of a parse step: it either completes (carrying the names of the children
      reported as unknown) or throws. */
  datatype Outcome<T> = Done(value: T) | Threw(failure: Failure)

  /** A rejection region in seconds: pair<unsigned int, unsigned int>. */
  datatype Region = Region(start: nat, end: nat)

  const TenNs: real := 0.00000001
  const EightNs: real := 0.000000008
  const FourNs: real := 0.000000004

  const CfdKnown: set<string> := {"Parameters"}
  const FittingKnown: set<string> := {"Parameters", "SiPmSigmaBaselineThresh", "SigmaBaselineThresh"}
  const GlobalKnown: set<string> := {"Revision", "EventWidth", "HasRaw", "OutputPath"}
  const RootKnown: set<string> := {"Author", "Description", "Global", "DetectorDriver", "Map", "Vandle",
                                   "TreeCorrelator", "TimeCalibration", "Trace", "Fitting", "Cfd",
                                   "Reject", "Notebook"}
  const TraceKnown: set<string> := {"DiscriminationStart", "TraceDelay", "QdcCompression",
                                    "WaveformRange", "TrapFilters"}
  const VandleKnown: set<string> := {"SpeedOfLightBig", "SpeedOfLightMedium", "SpeedOfLightSmall"}

  // ---------------------------------------------------------------------------
  // Messages

  const CriticalPrefix: string := "XmlParser::ParseGlobal - We couldn't find the \""
  const CriticalSuffix: string := "\" node. This node is critical to operation."

  /** The message for a missing critical node; the node name sits between a fixed prefix
      and a fixed suffix. */
  function CriticalNodeMessage(name: string): (m: string)
    ensures |m| == |CriticalPrefix| + |name| + |CriticalSuffix|
    ensures m[..|CriticalPrefix|] == CriticalPrefix
    ensures m[|m| - |CriticalSuffix|..] == CriticalSuffix
  {
    CriticalPrefix + name + CriticalSuffix
  }

  /** The node name a critical-node message carries. */
  function NodeNamedIn(m: string): string
    requires |m| >= |CriticalPrefix| + |CriticalSuffix|
  {
    m[|CriticalPrefix|..|m| - |CriticalSuffix|]
  }

  /** The message names exactly the node it was built from, so different nodes give
      different messages. */
  lemma CriticalNodeMessageNamesNode(name: string, other: string)
    ensures NodeNamedIn(CriticalNodeMessage(name)) == name
    ensures CriticalNodeMessage(name) == CriticalNodeMessage(other) ==> name == other
  {
    var m := CriticalNodeMessage(name);
    assert m[|CriticalPrefix|..|m| - |CriticalSuffix|] == name;
    var m' := CriticalNodeMessage(other);
    assert m'[|CriticalPrefix|..|m'| - |CriticalSuffix|] == other;
  }

  function RevisionMessage(revision: string): string {
    "XmlParser::ParseGlobal - The revision \"" + revision + "\", is not known to us. Known revisions are A, D, F"
  }

  function RejectMessage(start: int, end: int): string {
    "Globals: incomplete or wrong rejection region declaration: " +
    Decimal.IntToString(start) + ", " + Decimal.IntToString(end)
  }

  /** The text of a thrown message, as the source composes it. */
  function Text(m: Message): string {
    match m
    case CriticalNode(name) => CriticalNodeMessage(name)
    case UnknownRevision(revision) => RevisionMessage(revision)
    case BadRejectRegion(start, end) => RejectMessage(start, end)
  }

  // ---------------------------------------------------------------------------
  // Unknown children

  /** Names of the children whose name is not in `known`, in document order. */
  function UnknownNames(cs: seq<Node>, known: set<string>): seq<string> {
    if cs == [] then []
    else UnknownNames(cs[..|cs| - 1], known) + (if cs[|cs| - 1].name in known then [] else [cs[|cs| - 1].name])
  }

  /** Exactly the unknown children are reported, one entry per such child. */
  lemma {:induction false} UnknownNamesExact(cs: seq<Node>, known: set<string>)
    ensures |UnknownNames(cs, known)| <= |cs|
    ensures forall n :: n in UnknownNames(cs, known) <==>
                        n !in known && exists i :: 0 <= i < |cs| && cs[i].name == n
  {
    if cs != [] {
      var init := cs[..|cs| - 1];
      UnknownNamesExact(init, known);
      assert forall i :: 0 <= i < |init| ==> init[i] == cs[i];
    }
  }

  /** Reporting follows document order: the report on a + b is the report on a, then b. */
  lemma {:induction false} UnknownNamesInOrder(a: seq<Node>, b: seq<Node>, known: set<string>)
    ensures UnknownNames(a + b, known) == UnknownNames(a, known) + UnknownNames(b, known)
    decreases |b|
  {
    if b == [] {
      assert a + b == a;
    } else {
      assert (a + b)[..|a + b| - 1] == a + b[..|b| - 1];
      UnknownNamesInOrder(a, b[..|b| - 1], known);
    }
  }

  /** WarnOfUnknownChildren: walks the children and collects the unknown ones. It reads
      no configuration and changes none. */
  method WarnOfUnknownChildren(node: Node, known: set<string>) returns (unknown: seq<string>)
    ensures unknown == UnknownNames(node.children, known)
  {
    unknown := [];
    var i := 0;
    while i < |node.children|
      invariant 0 <= i <= |node.children|
      invariant unknown == UnknownNames(node.children[..i], known)
    {
      assert node.children[..i + 1][..i] == node.children[..i];
      if node.children[i].name !in known {
        unknown := unknown + [node.children[i].name];
      }
      i := i + 1;
    }
    assert node.children[..|node.children|] == node.children;
  }

  // ---------------------------------------------------------------------------
  // std::map::insert: an existing key keeps its value

  function Insert<V>(m: map<string, V>, k: string, v: V): map<string, V> {
    if k in m then m else m[k := v]
  }

  function InsertAll<V>(m: map<string, V>, es: seq<(string, V)>): map<string, V> {
    if es == [] then m else Insert(InsertAll(m, es[..|es| - 1]), es[|es| - 1].0, es[|es| - 1].1)
  }

  lemma {:induction false} InsertAllAppend<V>(m: map<string, V>, a: seq<(string, V)>, b: seq<(string, V)>)
    ensures InsertAll(m, a + b) == InsertAll(InsertAll(m, a), b)
    decreases |b|
  {
    if b == [] {
      assert a + b == a;
    } else {
      assert (a + b)[..|a + b| - 1] == a + b[..|b| - 1];
      InsertAllAppend(m, a, b[..|b| - 1]);
    }
  }

  /** Inserting a list of entries: the keys are the entries' keys (plus the old ones), an
      old key keeps its value, and a new key gets the value of its FIRST entry. */
  lemma {:induction false} InsertAllFirstWins<V>(m: map<string, V>, es: seq<(string, V)>)
    ensures forall k :: k in InsertAll(m, es) <==> k in m || exists i :: 0 <= i < |es| && es[i].0 == k
    ensures forall k :: k in m ==> InsertAll(m, es)[k] == m[k]
    ensures forall i :: 0 <= i < |es| && es[i].0 !in m && (forall j :: 0 <= j < i ==> es[j].0 != es[i].0) ==>
                        InsertAll(m, es)[es[i].0] == es[i].1
    decreases |es|
  {
    if es != [] {
      var init := es[..|es| - 1];
      var last := es[|es| - 1];
      InsertAllFirstWins(m, init);
      assert forall i :: 0 <= i < |init| ==> init[i] == es[i];
      assert InsertAll(m, es) == Insert(InsertAll(m, init), last.0, last.1);
      forall i | 0 <= i < |es| && es[i].0 !in m && (forall j :: 0 <= j < i ==> es[j].0 != es[i].0)
        ensures InsertAll(m, es)[es[i].0] == es[i].1
      {
        if i == |init| {
          assert es[i].0 !in InsertAll(m, init);
        }
      }
    }
  }

  /** One entry per node, in order. */
  function Entries<V>(nodes: seq<Node>, entry: Node -> (string, V)): (es: seq<(string, V)>)
    ensures |es| == |nodes| && forall i :: 0 <= i < |nodes| ==> es[i] == entry(nodes[i])
  {
    seq(|nodes|, i requires 0 <= i < |nodes| => entry(nodes[i]))
  }

  /** The insertion loops of the Cfd, Fitting, Trace parsers: one map.insert per node. */
  method InsertEach<V>(m0: map<string, V>, nodes: seq<Node>, entry: Node -> (string, V))
    returns (m: map<string, V>)
    ensures m == InsertAll(m0, Entries(nodes, entry))
  {
    m := m0;
    var i := 0;
    while i < |nodes|
      invariant 0 <= i <= |nodes|
      invariant m == InsertAll(m0, Entries(nodes[..i], entry))
    {
      var e := entry(nodes[i]);
      m := Insert(m, e.0, e.1);
      assert Entries(nodes[..i + 1], entry)[..i] == Entries(nodes[..i], entry);
      i := i + 1;
    }
    assert nodes[..|nodes|] == nodes;
  }

  /** A child's "value" read as an integer and stored in an unsigned int (as_uint, or an
      as_int result converted to unsigned). */
  function ChildValueUInt(n: Node, c: string, default: int): (v: nat)
    ensures v < 0x1_0000_0000
    ensures 0 <= ChildValueInt(n, c, default) < 0x1_0000_0000 ==> v == ChildValueInt(n, c, default)
  {
    ToUInt32(ChildValueInt(n, c, default))
  }

  // Entry readers, one per kind of parameter node: the key is the node's "name"
  // attribute (empty when missing) and the value the children's "value" attributes.

  function CfdEntry(p: Node): (string, (real, real)) {
    (AttrString(p, "name", ""), (ChildValueReal(p, "Fraction", 0.0), ChildValueReal(p, "Delay", 0.0)))
  }

  function FittingEntry(p: Node): (string, (real, real)) {
    (AttrString(p, "name", ""), (ChildValueReal(p, "Beta", 0.0), ChildValueReal(p, "Gamma", 0.0)))
  }

  function WaveformEntry(p: Node): (string, (int, int)) {
    (AttrString(p, "name", ""), (ChildValueUInt(p, "Low", 5), ChildValueUInt(p, "High", 10)))
  }

  function TrapEntry(p: Node): (string, (TrapFilterParameters, TrapFilterParameters)) {
    var trig := ChildOrEmpty(p, "Trigger");
    var en := ChildOrEmpty(p, "Energy");
    (AttrString(p, "name", ""),
     (TrapFilterParameters(AttrReal(trig, "l", 125.0), AttrReal(trig, "g", 125.0), AttrReal(trig, "t", 10.0)),
      TrapFilterParameters(AttrReal(en, "l", 300.0), AttrReal(en, "g", 300.0), AttrReal(en, "t", 50.0))))
  }

  // ---------------------------------------------------------------------------
  // Cfd

  /** The entries of every child of every Parameters child, in document order. */
  function CfdEntries(cs: seq<Node>): seq<(string, (real, real))> {
    if cs == [] then []
    else CfdEntries(cs[..|cs| - 1]) +
         (if cs[|cs| - 1].name == "Parameters" then Entries(cs[|cs| - 1].children, CfdEntry) else [])
  }

  lemma CfdEntriesSnoc(cs: seq<Node>, i: nat)
    requires i < |cs|
    ensures cs[i].name == "Parameters" ==>
              CfdEntries(cs[..i + 1]) == CfdEntries(cs[..i]) + Entries(cs[i].children, CfdEntry)
    ensures cs[i].name != "Parameters" ==> CfdEntries(cs[..i + 1]) == CfdEntries(cs[..i])
  {
    assert cs[..i + 1][..i] == cs[..i];
    assert CfdEntries(cs[..i]) + [] == CfdEntries(cs[..i]);
  }

  method CollectCfdParameters(node: Node) returns (pars: map<string, (real, real)>)
    ensures pars == InsertAll(map[], CfdEntries(node.children))
  {
    pars := map[];
    var i := 0;
    while i < |node.children|
      invariant 0 <= i <= |node.children|
      invariant pars == InsertAll(map[], CfdEntries(node.children[..i]))
    {
      var it := node.children[i];
      CfdEntriesSnoc(node.children, i);
      if it.name == "Parameters" {
        InsertAllAppend(map[], CfdEntries(node.children[..i]), Entries(it.children, CfdEntry));
        pars := InsertEach(pars, it.children, CfdEntry);
      }
      i := i + 1;
    }
    assert node.children[..|node.children|] == node.children;
  }

  function CfdStep(node: Node, s: Settings): (Settings, Outcome<seq<string>>) {
    if Child(node, "Parameters").Some? then
      (s.(cfdParameters := InsertAll(map[], CfdEntries(node.children))), Done(UnknownNames(node.children, CfdKnown)))
    else
      (s, Threw(InvalidArgument(CriticalNode(ChildOrEmpty(node, "Parameters").name))))
  }

  method ParseCfdNode(node: Node, globals: Globals) returns (r: Outcome<seq<string>>)
    modifies globals
    ensures (globals.Snapshot(), r) == CfdStep(node, old(globals.Snapshot()))
  {
    if Child(node, "Parameters").Some? {
      var pars := CollectCfdParameters(node);
      globals.cfdParameters := pars;
    } else {
      r := Threw(InvalidArgument(CriticalNode(ChildOrEmpty(node, "Parameters").name)));
      return;
    }
    var unknown := WarnOfUnknownChildren(node, CfdKnown);
    r := Done(unknown);
  }

  /** A Cfd node with Parameters children replaces the CFD parameters by a map whose keys
      are exactly the names declared in them; without one it throws and changes nothing. */
  lemma CfdStepSpec(node: Node, s: Settings)
    ensures var (s', r) := CfdStep(node, s);
            && (r.Done? <==> Child(node, "Parameters").Some?)
            && (r.Threw? ==> s' == s && r.failure.InvalidArgument?)
            && (r.Done? ==>
                  && s' == s.(cfdParameters := s'.cfdParameters)
                  && r.value == UnknownNames(node.children, CfdKnown)
                  && forall k :: k in s'.cfdParameters <==>
                       exists i :: 0 <= i < |CfdEntries(node.children)| && CfdEntries(node.children)[i].0 == k)
  {
    InsertAllFirstWins(map[], CfdEntries(node.children));
    if Child(node, "Parameters").Some? {
      assert CfdStep(node, s).0.cfdParameters == InsertAll(map[], CfdEntries(node.children));
    }
  }

  /** Every collected entry is that of a parameter node under a Parameters child. */
  lemma {:induction false} CfdEntryOrigin(cs: seq<Node>, i: nat) returns (a: nat, b: nat)
    requires i < |CfdEntries(cs)|
    ensures a < |cs| && cs[a].name == "Parameters" && b < |cs[a].children|
    ensures CfdEntries(cs)[i] == CfdEntry(cs[a].children[b])
    decreases |cs|
  {
    var init := cs[..|cs| - 1];
    if i < |CfdEntries(init)| {
      a, b := CfdEntryOrigin(init, i);
      assert init[a] == cs[a];
    } else {
      a, b := |cs| - 1, i - |CfdEntries(init)|;
    }
  }

  /** A declared CFD parameter whose name was not declared before is stored under that
      name with its Fraction and Delay, each 0 when its child is missing. */
  lemma CfdStepValues(node: Node, s: Settings, i: nat) returns (a: nat, b: nat)
    requires Child(node, "Parameters").Some?
    requires i < |CfdEntries(node.children)|
    requires forall j :: 0 <= j < i ==> CfdEntries(node.children)[j].0 != CfdEntries(node.children)[i].0
    ensures a < |node.children| && node.children[a].name == "Parameters" && b < |node.children[a].children|
    ensures var p := node.children[a].children[b];
            var pars := CfdStep(node, s).0.cfdParameters;
            && AttrString(p, "name", "") in pars
            && pars[AttrString(p, "name", "")] == (ChildValueReal(p, "Fraction", 0.0), ChildValueReal(p, "Delay", 0.0))
            && (Child(p, "Fraction").None? ==> pars[AttrString(p, "name", "")].0 == 0.0)
            && (Child(p, "Delay").None? ==> pars[AttrString(p, "name", "")].1 == 0.0)
  {
    a, b := CfdEntryOrigin(node.children, i);
    InsertAllFirstWins(map[], CfdEntries(node.children));
  }

  // ---------------------------------------------------------------------------
  // Fitting

  function FittingStep(node: Node, s: Settings): (Settings, Outcome<seq<string>>) {
    var s1 := s.(sigmaBaselineThresh :=
                 if Child(node, "SigmaBaselineThresh").Some? then ChildValueReal(node, "SigmaBaselineThresh", 0.0) else 3.0);
    var s2 := s1.(siPmSigmaBaselineThresh :=
                  if Child(node, "SiPmSigmaBaselineThresh").Some? then ChildValueReal(node, "SiPmSigmaBaselineThresh", 0.0) else 25.0);
    if Child(node, "Parameters").Some? then
      (s2, Done(UnknownNames(node.children, FittingKnown)))
    else
      (s2, Threw(InvalidArgument(CriticalNode(ChildOrEmpty(node, "Parameters").name))))
  }

  method ParseFittingNode(node: Node, globals: Globals) returns (r: Outcome<seq<string>>)
    modifies globals
    ensures (globals.Snapshot(), r) == FittingStep(node, old(globals.Snapshot()))
  {
    if Child(node, "SigmaBaselineThresh").Some? {
      globals.sigmaBaselineThresh := ChildValueReal(node, "SigmaBaselineThresh", 0.0);
    } else {
      globals.sigmaBaselineThresh := 3.0;
    }
    if Child(node, "SiPmSigmaBaselineThresh").Some? {
      globals.siPmSigmaBaselineThresh := ChildValueReal(node, "SiPmSigmaBaselineThresh", 0.0);
    } else {
      globals.siPmSigmaBaselineThresh := 25.0;
    }
    if Child(node, "Parameters").Some? {
      // The parameters are collected and then dropped: nothing stores them.
      var pars := InsertEach(map[], ChildOrEmpty(node, "Parameters").children, FittingEntry);
    } else {
      r := Threw(InvalidArgument(CriticalNode(ChildOrEmpty(node, "Parameters").name)));
      return;
    }
    var unknown := WarnOfUnknownChildren(node, FittingKnown);
    r := Done(unknown);
  }

  /** Thresholds default to 3 and 25; the thresholds are written even when the step then
      throws for a missing Parameters node; the fitting parameters themselves never
      reach Globals. */
  lemma FittingStepSpec(node: Node, s: Settings)
    ensures var (s', r) := FittingStep(node, s);
            && s' == s.(sigmaBaselineThresh := s'.sigmaBaselineThresh, siPmSigmaBaselineThresh := s'.siPmSigmaBaselineThresh)
            && s'.fittingParameters == s.fittingParameters
            && (Child(node, "SigmaBaselineThresh").None? ==> s'.sigmaBaselineThresh == 3.0)
            && (Child(node, "SiPmSigmaBaselineThresh").None? ==> s'.siPmSigmaBaselineThresh == 25.0)
            && (r.Done? <==> Child(node, "Parameters").Some?)
  {
  }

  // ---------------------------------------------------------------------------
  // Global

  /** (ADC clock, system clock, filter clock) in seconds for a Pixie16 revision. */
  function RevisionClocks(version: string): (c: Option<(real, real, real)>)
    ensures c.Some? ==> c.value.1 > 0.0
  {
    if version == "A" || version == "D" then Some((TenNs, TenNs, TenNs))
    else if version == "F" then Some((FourNs, EightNs, EightNs))
    else None
  }

  /** `convert` stands for Conversions::ConvertSecondsWithPrefix(value, unit). */
  function GlobalStep(node: Node, s: Settings, convert: (real, string) -> real): (Settings, Outcome<seq<string>>) {
    if Child(node, "Revision").None? then
      (s, Threw(InvalidArgument(CriticalNode("Revision"))))
    else
      var version := AttrString(ChildOrEmpty(node, "Revision"), "version", "");
      match RevisionClocks(version)
      case None => (s, Threw(InvalidArgument(UnknownRevision(version))))
      case Some(clocks) =>
        EventWidthStep(node, s.(adcClockInSeconds := clocks.0, clockInSeconds := clocks.1, filterClockInSeconds := clocks.2),
                       convert)
  }

  /** The part of the Global node read once the clocks are set. */
  function EventWidthStep(node: Node, s: Settings, convert: (real, string) -> real): (Settings, Outcome<seq<string>>)
    requires s.clockInSeconds > 0.0
  {
    if Child(node, "EventWidth").None? then
      (s, Threw(InvalidArgument(CriticalNode("EventWidth"))))
    else
      var ew := ChildOrEmpty(node, "EventWidth");
      var len := convert(AttrReal(ew, "value", 0.0), AttrString(ew, "unit", "None"));
      OutputPathStep(node, s.(eventLengthInSeconds := len, eventLengthInTicks := Trunc(len / s.clockInSeconds),
                              hasRawHistogramsDefined := HasRawOf(node)))
  }

  /** HasRaw's value read as a bool; true when the node or its attribute is missing. */
  function HasRawOf(node: Node): bool {
    if Child(node, "HasRaw").Some? then AttrBool(ChildOrEmpty(node, "HasRaw"), "value", true) else true
  }

  /** The part of the Global node read last: OutputPath, whose value overwrites the flag. */
  function OutputPathStep(node: Node, s: Settings): (Settings, Outcome<seq<string>>) {
    if Child(node, "OutputPath").None? then
      (s, Threw(InvalidArgument(CriticalNode("OutputPath"))))
    else
      (s.(hasRawHistogramsDefined := AttrBool(ChildOrEmpty(node, "OutputPath"), "value", true)),
       Done(UnknownNames(node.children, GlobalKnown)))
  }

  method ParseGlobalNode(node: Node, globals: Globals, convert: (real, string) -> real)
    returns (r: Outcome<seq<string>>)
    modifies globals
    ensures (globals.Snapshot(), r) == GlobalStep(node, old(globals.Snapshot()), convert)
  {
    if Child(node, "Revision").Some? {
      var revision := AttrString(ChildOrEmpty(node, "Revision"), "version", "");
      if revision == "A" || revision == "D" {
        globals.adcClockInSeconds := TenNs;
        globals.clockInSeconds := TenNs;
        globals.filterClockInSeconds := TenNs;
      } else if revision == "F" {
        globals.adcClockInSeconds := FourNs;
        globals.clockInSeconds := EightNs;
        globals.filterClockInSeconds := EightNs;
      } else {
        r := Threw(InvalidArgument(UnknownRevision(revision)));
        return;
      }
    } else {
      r := Threw(InvalidArgument(CriticalNode("Revision")));
      return;
    }
    assert GlobalStep(node, old(globals.Snapshot()), convert) == EventWidthStep(node, globals.Snapshot(), convert);
    r := ParseEventWidth(node, globals, convert);
  }

  /** The second half of ParseGlobalNode, once the clocks are set: the event width, the
      has-raw flag and the output path. */
  method ParseEventWidth(node: Node, globals: Globals, convert: (real, string) -> real)
    returns (r: Outcome<seq<string>>)
    requires globals.clockInSeconds > 0.0
    modifies globals
    ensures (globals.Snapshot(), r) == EventWidthStep(node, old(globals.Snapshot()), convert)
  {
    if Child(node, "EventWidth").Some? {
      var ew := ChildOrEmpty(node, "EventWidth");
      var eventLengthInSeconds := convert(AttrReal(ew, "value", 0.0), AttrString(ew, "unit", "None"));
      globals.eventLengthInSeconds := eventLengthInSeconds;
      globals.eventLengthInTicks := Trunc(eventLengthInSeconds / globals.clockInSeconds);
    } else {
      r := Threw(InvalidArgument(CriticalNode("EventWidth")));
      return;
    }

    if Child(node, "HasRaw").Some? {
      globals.hasRawHistogramsDefined := AttrBool(ChildOrEmpty(node, "HasRaw"), "value", true);
    } else {
      globals.hasRawHistogramsDefined := true;
    }
    assert EventWidthStep(node, old(globals.Snapshot()), convert) == OutputPathStep(node, globals.Snapshot());

    if Child(node, "OutputPath").Some? {
      globals.hasRawHistogramsDefined := AttrBool(ChildOrEmpty(node, "OutputPath"), "value", true);
    } else {
      r := Threw(InvalidArgument(CriticalNode("OutputPath")));
      return;
    }

    var unknown := WarnOfUnknownChildren(node, GlobalKnown);
    r := Done(unknown);
  }

  /** Revisions A and D run every clock at 10 ns, F runs the ADC at 4 ns and the system
      and filter clocks at 8 ns, and any other revision (a missing version attribute
      reads as "") throws without touching Globals. */
  lemma GlobalRevisionClocks(node: Node, s: Settings, convert: (real, string) -> real)
    requires Child(node, "Revision").Some?
    ensures var version := AttrString(ChildOrEmpty(node, "Revision"), "version", "");
            var (s', r) := GlobalStep(node, s, convert);
            && ((version == "A" || version == "D") ==>
                  s'.adcClockInSeconds == TenNs && s'.clockInSeconds == TenNs && s'.filterClockInSeconds == TenNs)
            && (version == "F" ==>
                  s'.adcClockInSeconds == FourNs && s'.clockInSeconds == EightNs && s'.filterClockInSeconds == EightNs)
            && (version != "A" && version != "D" && version != "F" ==>
                  s' == s && r == Threw(InvalidArgument(UnknownRevision(version))))
  {
  }

  /** The critical children are checked in the order Revision, EventWidth, OutputPath;
      the first one missing is the one named in the thrown message. */
  lemma GlobalCriticalChildren(node: Node, s: Settings, convert: (real, string) -> real)
    ensures var (s', r) := GlobalStep(node, s, convert);
            && (Child(node, "Revision").None? ==> r == Threw(InvalidArgument(CriticalNode("Revision"))) && s' == s)
            && (Child(node, "Revision").Some? && RevisionClocks(AttrString(ChildOrEmpty(node, "Revision"), "version", "")).Some? ==>
                  && (Child(node, "EventWidth").None? ==> r == Threw(InvalidArgument(CriticalNode("EventWidth"))))
                  && (Child(node, "EventWidth").Some? && Child(node, "OutputPath").None? ==>
                        r == Threw(InvalidArgument(CriticalNode("OutputPath")))))
            && (r.Done? <==> Child(node, "Revision").Some? && Child(node, "EventWidth").Some? &&
                             Child(node, "OutputPath").Some? &&
                             RevisionClocks(AttrString(ChildOrEmpty(node, "Revision"), "version", "")).Some?)
  {
  }

  /** On success the has-raw-histograms flag is the OutputPath value read as a bool
      (true when the attribute is missing), whatever HasRaw said. When only OutputPath is
      missing, the flag keeps HasRaw's value (true when HasRaw is absent). */
  lemma GlobalHasRawFlag(node: Node, s: Settings, convert: (real, string) -> real)
    ensures var (s', r) := GlobalStep(node, s, convert);
            && (r.Done? ==> s'.hasRawHistogramsDefined == AttrBool(ChildOrEmpty(node, "OutputPath"), "value", true))
            && (Child(node, "Revision").Some? && Child(node, "EventWidth").Some? && Child(node, "OutputPath").None? &&
                RevisionClocks(AttrString(ChildOrEmpty(node, "Revision"), "version", "")).Some? ==>
                  s'.hasRawHistogramsDefined ==
                    (if Child(node, "HasRaw").Some? then AttrBool(ChildOrEmpty(node, "HasRaw"), "value", true) else true))
  {
  }

  /** The event length in ticks is the event length divided by the system clock, truncated. */
  lemma GlobalEventTicks(node: Node, s: Settings, convert: (real, string) -> real)
    ensures var (s', r) := GlobalStep(node, s, convert);
            r.Done? ==> s'.clockInSeconds > 0.0 &&
                        s'.eventLengthInTicks == Trunc(s'.eventLengthInSeconds / s'.clockInSeconds)
  {
  }

  // ---------------------------------------------------------------------------
  // Reject

  function TimeStart(t: Node): int { AttrInt(t, "start", 0) }
  function TimeEnd(t: Node): int { AttrInt(t, "end", 0) }

  /** A Time element is accepted unless an endpoint is 0 (also when missing) or start > end. */
  predicate RegionDeclOk(start: int, end: int) {
    !(start == 0 || end == 0 || start > end)
  }

  /** The regions of the Time elements, or the failure of the first bad one. Endpoints are
      read as int and stored as unsigned int. */
  function RejectRegions(times: seq<Node>): Outcome<seq<Region>> {
    if times == [] then Done([])
    else
      var start, end := TimeStart(times[0]), TimeEnd(times[0]);
      if !RegionDeclOk(start, end) then Threw(InvalidArgument(BadRejectRegion(start, end)))
      else
        PrependRegions([Region(ToUInt32(start), ToUInt32(end))], RejectRegions(times[1..]))
  }

  /** `o` with `prefix` put in front of its regions, when it has any. */
  function PrependRegions(prefix: seq<Region>, o: Outcome<seq<Region>>): Outcome<seq<Region>> {
    match o
    case Done(rest) => Done(prefix + rest)
    case Threw(f) => Threw(f)
  }

  lemma PrependRegionsAppend(a: seq<Region>, b: seq<Region>, o: Outcome<seq<Region>>)
    ensures PrependRegions(a, PrependRegions(b, o)) == PrependRegions(a + b, o)
    ensures PrependRegions([], o) == o
  {
    if o.Done? {
      assert a + (b + o.value) == (a + b) + o.value;
      assert [] + o.value == o.value;
    }
  }

  method ParseRejectNode(node: Node) returns (r: Outcome<seq<Region>>)
    ensures r == RejectRegions(ChildrenNamed(node.children, "Time"))
  {
    var times := ChildrenNamed(node.children, "Time");
    var regions: seq<Region> := [];
    var i := 0;
    assert times[0..] == times;
    PrependRegionsAppend([], [], RejectRegions(times));
    while i < |times|
      invariant 0 <= i <= |times|
      invariant RejectRegions(times) == PrependRegions(regions, RejectRegions(times[i..]))
    {
      var start := TimeStart(times[i]);
      var end := TimeEnd(times[i]);
      assert times[i..][0] == times[i] && times[i..][1..] == times[i + 1..];
      if start == 0 || end == 0 || start > end {
        r := Threw(InvalidArgument(BadRejectRegion(start, end)));
        return;
      }
      var region := Region(ToUInt32(start), ToUInt32(end));
      PrependRegionsAppend(regions, [region], RejectRegions(times[i + 1..]));
      regions := regions + [region];
      i := i + 1;
    }
    assert regions + [] == regions;
    r := Done(regions);
  }

  /** The Reject node succeeds exactly when every Time element is well formed; then there
      is one region per Time element, in document order. Otherwise the first bad element
      is the one reported, with its two endpoints. */
  lemma {:induction false} RejectRegionsSpec(times: seq<Node>)
    ensures var r := RejectRegions(times);
            && (r.Done? <==> forall i :: 0 <= i < |times| ==> RegionDeclOk(TimeStart(times[i]), TimeEnd(times[i])))
            && (r.Done? ==>
                  && |r.value| == |times|
                  && forall i :: 0 <= i < |times| ==>
                       r.value[i] == Region(ToUInt32(TimeStart(times[i])), ToUInt32(TimeEnd(times[i]))))
            && (r.Threw? ==>
                  exists i :: && 0 <= i < |times|
                              && !RegionDeclOk(TimeStart(times[i]), TimeEnd(times[i]))
                              && (forall j :: 0 <= j < i ==> RegionDeclOk(TimeStart(times[j]), TimeEnd(times[j])))
                              && r.failure == InvalidArgument(BadRejectRegion(TimeStart(times[i]), TimeEnd(times[i]))))
  {
    if times != [] {
      RejectRegionsSpec(times[1..]);
      assert forall i :: 1 <= i < |times| ==> times[1..][i - 1] == times[i];
      var r := RejectRegions(times);
      if r.Threw? && RegionDeclOk(TimeStart(times[0]), TimeEnd(times[0])) {
        var k :| 0 <= k < |times[1..]| && !RegionDeclOk(TimeStart(times[1..][k]), TimeEnd(times[1..][k])) &&
                 (forall j :: 0 <= j < k ==> RegionDeclOk(TimeStart(times[1..][j]), TimeEnd(times[1..][j]))) &&
                 RejectRegions(times[1..]).failure == InvalidArgument(BadRejectRegion(TimeStart(times[1..][k]), TimeEnd(times[1..][k])));
        assert !RegionDeclOk(TimeStart(times[k + 1]), TimeEnd(times[k + 1]));
      }
    }
  }

  // ---------------------------------------------------------------------------
  // Root

  function ParseRootNode(node: Node): (r: Outcome<seq<string>>)
    ensures r.Done? <==> Child(node, "Map").Some? && Child(node, "Global").Some?
    ensures r.Done? ==> r.value == UnknownNames(node.children, RootKnown)
  {
    if Child(node, "Map").None? then Threw(InvalidArgument(CriticalNode(ChildOrEmpty(node, "Map").name)))
    else if Child(node, "Global").None? then Threw(InvalidArgument(CriticalNode(ChildOrEmpty(node, "Global").name)))
    else Done(UnknownNames(node.children, RootKnown))
  }

  // ---------------------------------------------------------------------------
  // Trace

  function DiscriminationStartOf(node: Node): int {
    if Child(node, "DiscriminationStart").Some? then ChildValueUInt(node, "DiscriminationStart", 0) else 3
  }

  function QdcCompressionOf(node: Node): real {
    if Child(node, "QdcCompression").Some? then ChildValueReal(node, "QdcCompression", 0.0) else 1.0
  }

  function WaveformRangesOf(node: Node): map<string, (int, int)> {
    InsertAll(map[], Entries(ChildOrEmpty(node, "WaveformRange").children, WaveformEntry))
  }

  function TrapFiltersOf(node: Node): map<string, (TrapFilterParameters, TrapFilterParameters)> {
    InsertAll(map[], Entries(ChildOrEmpty(node, "TrapFilters").children, TrapEntry))
  }

  function TraceStep(node: Node, s: Settings): (Settings, Outcome<seq<string>>) {
    var s1 := s.(discriminationStart := DiscriminationStartOf(node));
    if Child(node, "TraceDelay").None? then
      (s1, Threw(StringThrown(CriticalNode(ChildOrEmpty(node, "TraceDelay").name))))
    else
      RangesStep(node, s1.(traceDelay := ChildValueUInt(node, "TraceDelay", 0), qdcCompression := QdcCompressionOf(node)))
  }

  /** The part of the Trace node read after TraceDelay and QdcCompression. */
  function RangesStep(node: Node, s: Settings): (Settings, Outcome<seq<string>>) {
    if Child(node, "WaveformRange").None? then
      (s, Threw(InvalidArgument(CriticalNode("WaveformRange"))))
    else
      var s1 := s.(waveformRanges := WaveformRangesOf(node));
      (if Child(node, "TrapFilters").None? then s1.(trapFilterParameters := TrapFiltersOf(node)) else s1,
       Done(UnknownNames(node.children, TraceKnown)))
  }

  method ParseTraceNode(node: Node, globals: Globals) returns (r: Outcome<seq<string>>)
    modifies globals
    ensures (globals.Snapshot(), r) == TraceStep(node, old(globals.Snapshot()))
  {
    if Child(node, "DiscriminationStart").Some? {
      globals.discriminationStart := ChildValueUInt(node, "DiscriminationStart", 0);
    } else {
      globals.discriminationStart := 3;
    }
    if Child(node, "TraceDelay").Some? {
      globals.traceDelay := ChildValueUInt(node, "TraceDelay", 0);
    } else {
      r := Threw(StringThrown(CriticalNode(ChildOrEmpty(node, "TraceDelay").name)));
      return;
    }
    if Child(node, "QdcCompression").Some? {
      globals.qdcCompression := ChildValueReal(node, "QdcCompression", 0.0);
    } else {
      globals.qdcCompression := 1.0;
    }
    assert TraceStep(node, old(globals.Snapshot())) == RangesStep(node, globals.Snapshot());
    r := ParseRanges(node, globals);
  }

  /** The second half of ParseTraceNode: the waveform ranges and the trap filters. */
  method ParseRanges(node: Node, globals: Globals) returns (r: Outcome<seq<string>>)
    modifies globals
    ensures (globals.Snapshot(), r) == RangesStep(node, old(globals.Snapshot()))
  {
    if Child(node, "WaveformRange").Some? {
      var waveRngs := InsertEach(map[], ChildOrEmpty(node, "WaveformRange").children, WaveformEntry);
      globals.waveformRanges := waveRngs;
    } else {
      r := Threw(InvalidArgument(CriticalNode("WaveformRange")));
      return;
    }
    if Child(node, "TrapFilters").None? {
      var tmp := InsertEach(map[], ChildOrEmpty(node, "TrapFilters").children, TrapEntry);
      globals.trapFilterParameters := tmp;
    }
    var unknown := WarnOfUnknownChildren(node, TraceKnown);
    r := Done(unknown);
  }

  /** Discrimination start 3 when its node is missing. */
  lemma TraceDiscriminationDefault(node: Node, s: Settings)
    ensures Child(node, "DiscriminationStart").None? ==> TraceStep(node, s).0.discriminationStart == 3
  {
    if Child(node, "TraceDelay").Some? {
      RangesStepKeeps(node, s.(discriminationStart := 3, traceDelay := ChildValueUInt(node, "TraceDelay", 0),
                               qdcCompression := QdcCompressionOf(node)));
    }
  }

  /** QDC compression 1.0 when its node is missing (it is read only after TraceDelay). */
  lemma TraceQdcDefault(node: Node, s: Settings)
    ensures Child(node, "TraceDelay").Some? && Child(node, "QdcCompression").None? ==>
              TraceStep(node, s).0.qdcCompression == 1.0
  {
    if Child(node, "TraceDelay").Some? {
      RangesStepKeeps(node, s.(discriminationStart := DiscriminationStartOf(node),
                               traceDelay := ChildValueUInt(node, "TraceDelay", 0), qdcCompression := QdcCompressionOf(node)));
    }
  }

  /** On success the waveform ranges are those the WaveformRange node lists. */
  lemma TraceWaveformRanges(node: Node, s: Settings)
    ensures TraceStep(node, s).1.Done? ==> TraceStep(node, s).0.waveformRanges == WaveformRangesOf(node)
  {
    if Child(node, "TraceDelay").Some? {
      var s2 := s.(discriminationStart := DiscriminationStartOf(node),
                   traceDelay := ChildValueUInt(node, "TraceDelay", 0), qdcCompression := QdcCompressionOf(node));
      assert TraceStep(node, s) == RangesStep(node, s2);
    }
  }

  /** The part read after TraceDelay writes neither the discrimination start nor the QDC
      compression. */
  lemma RangesStepKeeps(node: Node, s: Settings)
    ensures RangesStep(node, s).0.discriminationStart == s.discriminationStart
    ensures RangesStep(node, s).0.qdcCompression == s.qdcCompression
  {
  }

  /** The Trace node fails exactly when TraceDelay or WaveformRange is missing. A missing
      TraceDelay throws a bare string, after only the discrimination start was written; a
      missing WaveformRange throws invalid_argument naming it. */
  lemma TraceStepFailures(node: Node, s: Settings)
    ensures var (s', r) := TraceStep(node, s);
            && (r.Done? <==> Child(node, "TraceDelay").Some? && Child(node, "WaveformRange").Some?)
            && (Child(node, "TraceDelay").None? ==>
                  r.Threw? && r.failure.StringThrown? && s' == s.(discriminationStart := s'.discriminationStart))
            && (Child(node, "TraceDelay").Some? && Child(node, "WaveformRange").None? ==>
                  r == Threw(InvalidArgument(CriticalNode("WaveformRange"))))
  {
  }

  /** Each waveform range is keyed by its name and takes Low 5 / High 10 when those
      children are missing; the first range of a name wins. */
  lemma WaveformRangesSpec(rs: seq<Node>)
    ensures var ranges := InsertAll(map[], Entries(rs, WaveformEntry));
            forall i :: 0 <= i < |rs| && (forall j :: 0 <= j < i ==> AttrString(rs[j], "name", "") != AttrString(rs[i], "name", "")) ==>
              (var key := AttrString(rs[i], "name", "");
               && key in ranges
               && ranges[key] == (ChildValueUInt(rs[i], "Low", 5), ChildValueUInt(rs[i], "High", 10))
               && (Child(rs[i], "Low").None? ==> ranges[key].0 == 5)
               && (Child(rs[i], "High").None? ==> ranges[key].1 == 10))
  {
    InsertAllFirstWins(map[], Entries(rs, WaveformEntry));
  }

  // ---------------------------------------------------------------------------
  // Vandle

  function VandleStep(node: Node, s: Settings): (Settings, Outcome<seq<string>>) {
    (s.(vandleBigSpeedOfLight :=
          if Child(node, "SpeedOfLightBig").Some? then ChildValueReal(node, "SpeedOfLightBig", 0.0) else 15.22998,
        vandleMediumSpeedOfLight :=
          if Child(node, "SpeedOfLightMedium").Some? then ChildValueReal(node, "SpeedOfLightMedium", 0.0) else 15.5,
        vandleSmallSpeedOfLight :=
          if Child(node, "SpeedOfLightSmall").Some? then ChildValueReal(node, "SpeedOfLightSmall", 0.0) else 12.65822),
     Done(UnknownNames(node.children, VandleKnown)))
  }

  method ParseVandleNode(node: Node, globals: Globals) returns (r: Outcome<seq<string>>)
    modifies globals
    ensures (globals.Snapshot(), r) == VandleStep(node, old(globals.Snapshot()))
  {
    if Child(node, "SpeedOfLightBig").Some? {
      globals.vandleBigSpeedOfLight := ChildValueReal(node, "SpeedOfLightBig", 0.0);
    } else {
      globals.vandleBigSpeedOfLight := 15.22998;
    }
    if Child(node, "SpeedOfLightMedium").Some? {
      globals.vandleMediumSpeedOfLight := ChildValueReal(node, "SpeedOfLightMedium", 0.0);
    } else {
      globals.vandleMediumSpeedOfLight := 15.5;
    }
    if Child(node, "SpeedOfLightSmall").Some? {
      globals.vandleSmallSpeedOfLight := ChildValueReal(node, "SpeedOfLightSmall", 0.0);
    } else {
      globals.vandleSmallSpeedOfLight := 12.65822;
    }
    var unknown := WarnOfUnknownChildren(node, VandleKnown);
    r := Done(unknown);
  }

  /** The Vandle node never throws, writes only the three speeds of light, and uses
      15.22998, 15.5 and 12.65822 cm/ns for the ones it lacks. */
  lemma VandleStepSpec(node: Node, s: Settings)
    ensures var (s', r) := VandleStep(node, s);
            && r.Done?
            && s' == s.(vandleBigSpeedOfLight := s'.vandleBigSpeedOfLight,
                        vandleMediumSpeedOfLight := s'.vandleMediumSpeedOfLight,
                        vandleSmallSpeedOfLight := s'.vandleSmallSpeedOfLight)
            && (Child(node, "SpeedOfLightBig").None? ==> s'.vandleBigSpeedOfLight == 15.22998)
            && (Child(node, "SpeedOfLightMedium").None? ==> s'.vandleMediumSpeedOfLight == 15.5)
            && (Child(node, "SpeedOfLightSmall").None? ==> s'.vandleSmallSpeedOfLight == 12.65822)
  {
  }

  // ---------------------------------------------------------------------------
  // Where the parser departs from what its comments and messages intend. Each
  // as-written behaviour is exhibited by a lemma about the step it comes from; the
  // corrected step beside it carries the intended property.

  /** A missing Map or Global node (and a missing Parameters node under Cfd or Fitting)
      is reported through the name of the node that was NOT found, which is empty: the
      message names no node at all. */
  lemma MissingNodeReportedNameless(node: Node, s: Settings)
    ensures Child(node, "Map").None? ==> ParseRootNode(node) == Threw(InvalidArgument(CriticalNode("")))
    ensures Child(node, "Map").Some? && Child(node, "Global").None? ==>
              ParseRootNode(node) == Threw(InvalidArgument(CriticalNode("")))
    ensures Child(node, "Parameters").None? ==>
              CfdStep(node, s).1 == Threw(InvalidArgument(CriticalNode(""))) &&
              FittingStep(node, s).1 == Threw(InvalidArgument(CriticalNode("")))
    ensures NodeNamedIn(CriticalNodeMessage("")) == "" != "Map"
  {
    CriticalNodeMessageNamesNode("", "");
  }

  /** The root node, naming the critical node that is missing. */
  function ParseRootNodeCorrected(node: Node): (r: Outcome<seq<string>>)
    ensures r.Done? <==> Child(node, "Map").Some? && Child(node, "Global").Some?
    ensures r.Threw? ==> r.failure.InvalidArgument? && r.failure.message.CriticalNode? &&
                         r.failure.message.name in {"Map", "Global"} && Child(node, r.failure.message.name).None?
    ensures r.Done? ==> r == ParseRootNode(node)
  {
    if Child(node, "Map").None? then Threw(InvalidArgument(CriticalNode("Map")))
    else if Child(node, "Global").None? then Threw(InvalidArgument(CriticalNode("Global")))
    else Done(UnknownNames(node.children, RootKnown))
  }

  /** The Cfd node, naming Parameters when it is missing. */
  function CfdStepCorrected(node: Node, s: Settings): (out: (Settings, Outcome<seq<string>>))
    ensures out.1.Threw? <==> Child(node, "Parameters").None?
    ensures out.1.Threw? ==> out == (s, Threw(InvalidArgument(CriticalNode("Parameters"))))
    ensures out.1.Done? ==> out == CfdStep(node, s)
  {
    if Child(node, "Parameters").Some? then CfdStep(node, s)
    else (s, Threw(InvalidArgument(CriticalNode("Parameters"))))
  }

  /** The Fitting node, storing its parameters and naming Parameters when it is missing. */
  function FittingStepCorrected(node: Node, s: Settings): (Settings, Outcome<seq<string>>) {
    var s2 := FittingStep(node, s).0;
    if Child(node, "Parameters").Some? then
      (s2.(fittingParameters := InsertAll(map[], Entries(ChildOrEmpty(node, "Parameters").children, FittingEntry))),
       Done(UnknownNames(node.children, FittingKnown)))
    else
      (s2, Threw(InvalidArgument(CriticalNode("Parameters"))))
  }

  /** Every parameter named under Parameters is stored, with its Beta and Gamma (0 when
      missing), the first declaration of a name winning; a missing Parameters node is
      named in the failure. */
  lemma FittingStepCorrectedStores(node: Node, s: Settings)
    ensures var (s', r) := FittingStepCorrected(node, s);
            && (r.Threw? <==> Child(node, "Parameters").None?)
            && (r.Threw? ==> r.failure == InvalidArgument(CriticalNode("Parameters")))
            && (r.Done? ==>
                  var ps := ChildOrEmpty(node, "Parameters").children;
                  forall i :: 0 <= i < |ps| &&
                              (forall j :: 0 <= j < i ==> AttrString(ps[j], "name", "") != AttrString(ps[i], "name", "")) ==>
                    && AttrString(ps[i], "name", "") in s'.fittingParameters
                    && s'.fittingParameters[AttrString(ps[i], "name", "")] ==
                         (ChildValueReal(ps[i], "Beta", 0.0), ChildValueReal(ps[i], "Gamma", 0.0)))
  {
    InsertAllFirstWins(map[], Entries(ChildOrEmpty(node, "Parameters").children, FittingEntry));
  }

  /** The trap filters the Trace node declares are ignored, and an absent TrapFilters node
      wipes the filters already configured. */
  lemma TrapFiltersInverted(node: Node, s: Settings)
    requires TraceStep(node, s).1.Done?
    ensures Child(node, "TrapFilters").Some? ==> TraceStep(node, s).0.trapFilterParameters == s.trapFilterParameters
    ensures Child(node, "TrapFilters").None? ==> TraceStep(node, s).0.trapFilterParameters == map[]
  {
  }

  /** A missing TraceDelay is thrown as a bare string naming no node, so a handler for
      invalid_argument does not see it. */
  lemma TraceDelayThrownAsString(node: Node, s: Settings)
    requires Child(node, "TraceDelay").None?
    ensures TraceStep(node, s).1 == Threw(StringThrown(CriticalNode("")))
  {
  }

  /** The Trace node with TraceDelay reported as invalid_argument and the trap filters read
      when the TrapFilters node is present. */
  function TraceStepCorrected(node: Node, s: Settings): (Settings, Outcome<seq<string>>) {
    var s1 := s.(discriminationStart := DiscriminationStartOf(node));
    if Child(node, "TraceDelay").None? then
      (s1, Threw(InvalidArgument(CriticalNode("TraceDelay"))))
    else
      var s3 := s1.(traceDelay := ChildValueUInt(node, "TraceDelay", 0), qdcCompression := QdcCompressionOf(node));
      if Child(node, "WaveformRange").None? then
        (s3, Threw(InvalidArgument(CriticalNode("WaveformRange"))))
      else
        var s4 := s3.(waveformRanges := WaveformRangesOf(node));
        (if Child(node, "TrapFilters").Some? then s4.(trapFilterParameters := TrapFiltersOf(node)) else s4,
         Done(UnknownNames(node.children, TraceKnown)))
  }

  /** Every failure of the corrected Trace step is an invalid_argument naming the missing
      node, and declared trap filters are the ones configured afterwards. */
  lemma TraceStepCorrectedSpec(node: Node, s: Settings)
    ensures var (s', r) := TraceStepCorrected(node, s);
            && (r.Threw? ==> r.failure.InvalidArgument? && r.failure.message.CriticalNode? &&
                             Child(node, r.failure.message.name).None?)
            && (r.Done? && Child(node, "TrapFilters").Some? ==> s'.trapFilterParameters == TrapFiltersOf(node))
            && (r.Done? && Child(node, "TrapFilters").None? ==> s'.trapFilterParameters == s.trapFilterParameters)
            && (r.Done? <==> TraceStep(node, s).1.Done?)
  {
  }

  /** The Global node with the output path taken from OutputPath and the has-raw flag left
      as HasRaw set it. */
  function GlobalStepCorrected(node: Node, s: Settings, convert: (real, string) -> real): (Settings, Outcome<seq<string>>) {
    var (s', r) := GlobalStep(node, s, convert);
    if r.Done? then
      (s'.(hasRawHistogramsDefined := HasRawOf(node),
           outputPath := AttrString(ChildOrEmpty(node, "OutputPath"), "value", "")), r)
    else (s', r)
  }

  lemma GlobalStepCorrectedSpec(node: Node, s: Settings, convert: (real, string) -> real)
    ensures var (s', r) := GlobalStepCorrected(node, s, convert);
            && (r == GlobalStep(node, s, convert).1)
            && (r.Done? ==> s'.hasRawHistogramsDefined == HasRawOf(node))
            && (r.Done? ==> s'.outputPath == AttrString(ChildOrEmpty(node, "OutputPath"), "value", ""))
  {
  }

  /** A negative endpoint passes the check and wraps around when stored as unsigned, so a
      region can be stored with its start after its end. */
  lemma NegativeRejectStartWraps()
    ensures var t := Node("Time", map["start" := Attr("-5", -5, -5.0), "end" := Attr("3", 3, 3.0)], [], "");
            RejectRegions([t]) == Done([Region(4294967291, 3)])
  {
    var t := Node("Time", map["start" := Attr("-5", -5, -5.0), "end" := Attr("3", 3, 3.0)], [], "");
    assert TimeStart(t) == -5 && TimeEnd(t) == 3;
    assert RegionDeclOk(-5, 3);
    assert ToUInt32(-5) == 4294967291 && ToUInt32(3) == 3;
    assert [t][1..] == [];
    assert [Region(4294967291, 3)] + [] == [Region(4294967291, 3)];
  }

  /** The Reject node requiring positive endpoints, so that every stored region runs
      forward. */
  function RejectRegionsCorrected(times: seq<Node>): Outcome<seq<Region>> {
    if times == [] then Done([])
    else
      var start, end := TimeStart(times[0]), TimeEnd(times[0]);
      if !RegionDeclOk(start, end) || start < 0 then Threw(InvalidArgument(BadRejectRegion(start, end)))
      else PrependRegions([Region(start, end)], RejectRegionsCorrected(times[1..]))
  }

  lemma {:induction false} RejectRegionsCorrectedForward(times: seq<Node>)
    ensures var r := RejectRegionsCorrected(times);
            r.Done? ==> |r.value| == |times| &&
                        forall i :: 0 <= i < |r.value| ==> 0 < r.value[i].start <= r.value[i].end
  {
    if times != [] {
      RejectRegionsCorrectedForward(times[1..]);
    }
  }
}
