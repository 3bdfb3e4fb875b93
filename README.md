# utkscan configuration parser, raw event and coincidence processors in Dafny

This project models three parts of the utkscan analysis code of paass-lc.

1. **The configuration parser (XmlParser).** It reads the Global, Cfd, Fitting, Trace, Vandle, Reject and root nodes of the XML configuration. Optional children get defaults. A missing critical child throws. Revision letters map to clock periods. Rejection regions are validated. Unknown children are reported.
   - Each `ParseXNode` method updates a `Globals` object in place.
   - Its postcondition ties the new state and the outcome to a pure step function over a `Settings` snapshot.
   - Lemmas state what each step promises.
2. **The raw-event data model (RawEvent.h).**
   - `Identifier` and its equality.
   - `ChanEvent` with its setters, getters and trace-information list.
   - `DetectorSummary` with its multiplicity and maximum event.
   - `RawEvent` with its channel list.
3. **Four event processors** that match a start channel against a stop channel within one raw event.
   - **NaI coincidence:** window rule on clock ticks.
   - **Multi-channel coincidence:** window rule over hits kept across events in a map keyed by channel number.
   - **Time difference:** start-before-stop rule.
   - **Time-spectrum generator:** per-hit buffering that emits the latest start and stop and then clears both buffers.

   Each processor's `Process` is a method with the source's loops. Its postcondition equals a pure specification of what the call plots or emits. Lemmas about those specifications give the bounds, ordering and origin of every match.

Histogram plots and tree fills are returned as sequences: `Plots`, `recorded`, `Spectrum`. The answer of the base `EventProcessor::Process` is the `accepted` parameter.

When two front hits do not match, the NaI and multi-channel processors "remove the oldest data point" (the source comment at NaICoincidenceProcessor.cpp:135 and MultiChannelCoincidenceProcessor.cpp:150). When the two times are equal, the code drops the stop front. The time-difference processor always drops the stop front when the start is not strictly earlier. The model follows the code.

Files:

- `numbers.dfy`: the conversions C++ performs implicitly.
- `decimal.dfy`: `std::to_string` and its inverse.
- `xml.dfy`: the XML tree.
- `configuration.dfy`: `Globals`.
- `xml_parser.dfy`: the parser.
- `raw_event.dfy`: the raw-event data model.
- `coincidence.dfy`: hit records, the channel partition and both matching rules.
- One file per processor.

## Model

| member | source | states |
|---|---|---|
| Numbers.Abs | Analysis/Utkscan/experiment/source/NaICoincidenceProcessor.cpp:126 | `std::abs` of a time difference: non-negative and equal to the value or its negation |
| Numbers.Trunc | Analysis/Utkscan/experiment/source/NaICoincidenceProcessor.cpp:103 | `int(double)` drops the fraction toward zero. For x ≥ 0, 0 ≤ r ≤ x < r+1. For x < 0, r−1 < x ≤ r ≤ 0 |
| Numbers.ToUInt32 | Analysis/Utkscan/core/source/XmlParser.cpp:169 | storing an int in an unsigned int: the result is below 2^32; values in [0, 2^32) are unchanged; a negative value above −2^32 gains 2^32 |
| Decimal.NatToString | Analysis/Utkscan/experiment/source/MultiChannelCoincidenceProcessor.cpp:110 | the digits of a natural number: non-empty, decimal digits only, no leading zero |
| Decimal.IntToString | Analysis/Utkscan/experiment/source/MultiChannelCoincidenceProcessor.cpp:110 | `to_string(channel)`: non-empty, and it starts with '-' exactly when the number is negative |
| Decimal.IntRoundTrip | Analysis/Utkscan/experiment/source/MultiChannelCoincidenceProcessor.cpp:110 | reading back the rendering of any integer gives that integer |
| Decimal.IntToStringInjective | Analysis/Utkscan/experiment/source/MultiChannelCoincidenceProcessor.cpp:110-125 | two channels get the same map key if and only if they are the same channel |
| Xml.FirstNamedSpec | Analysis/Utkscan/core/source/XmlParser.cpp:20 | `node.child(name)` is the first child with that name, and none is found exactly when no child has the name |
| Xml.ChildOrEmpty | Analysis/Utkscan/core/source/XmlParser.cpp:32 | a missing child reads as the empty node, whose name is "" |
| Xml.ChildrenNamed | Analysis/Utkscan/core/source/XmlParser.cpp:155-156 | the child/next_sibling walk yields only children with the name, every child with the name, and no more nodes than there are children |
| Xml.ChildrenNamedAppend | Analysis/Utkscan/core/source/XmlParser.cpp:155-156 | the walk keeps document order: over children a followed by b it yields a's named children, then b's |
| Xml.ChildValueInt | Analysis/Utkscan/core/source/XmlParser.cpp:236-239 | `child(c).attribute("value").as_int(d)` is d when the child is missing |
| Xml.ChildValueReal | Analysis/Utkscan/core/source/XmlParser.cpp:28-29 | `child(c).attribute("value").as_double(d)` is d when the child is missing |
| Configuration.Globals.constructor | Analysis/Utkscan/core/source/XmlParser.cpp:19 | the Globals the parser is handed: every setting the parser writes has the given value |
| XmlParser.CriticalNodeMessage | Analysis/Utkscan/core/source/XmlParser.cpp:327-330 | the message is the fixed prefix, then the node name, then the fixed suffix |
| XmlParser.CriticalNodeMessageNamesNode | Analysis/Utkscan/core/source/XmlParser.cpp:327-330 | the node name can be read back from the message, so different names give different messages |
| XmlParser.UnknownNamesExact | Analysis/Utkscan/core/source/XmlParser.cpp:314-323 | a name is reported if and only if some child has it and it is not in the known set; there is at most one report per child |
| XmlParser.UnknownNamesInOrder | Analysis/Utkscan/core/source/XmlParser.cpp:316-317 | reports follow child order: the report on children a followed by b is the report on a followed by the report on b |
| XmlParser.WarnOfUnknownChildren | Analysis/Utkscan/core/source/XmlParser.cpp:314-323 | the loop over the children collects exactly the unknown names in child order; it takes no Globals and changes none |
| XmlParser.InsertAllFirstWins | Analysis/Utkscan/core/source/XmlParser.cpp:26-29 | repeated `std::map::insert`: the keys are the old keys plus the entry keys, old keys keep their values, and a new key takes the value of its first entry |
| XmlParser.InsertEach | Analysis/Utkscan/core/source/XmlParser.cpp:73-78 | an insert loop over parameter nodes builds the same map as inserting their entries in order |
| XmlParser.ChildValueUInt | Analysis/Utkscan/core/source/XmlParser.cpp:200 | a "value" stored as unsigned int: the result is below 2^32 and equals the integer reading when that is in range |
| XmlParser.CollectCfdParameters | Analysis/Utkscan/core/source/XmlParser.cpp:21-29 | the nested loop inserts the entries of every child of every Parameters child, in document order |
| XmlParser.ParseCfdNode | Analysis/Utkscan/core/source/XmlParser.cpp:19-35 | the new Globals and the outcome are those of the Cfd step applied to the old Globals |
| XmlParser.CfdStepSpec | Analysis/Utkscan/core/source/XmlParser.cpp:19-35 | the step succeeds if and only if a Parameters child exists. Otherwise it throws invalid_argument and changes nothing. On success only the CFD parameters change, their keys are exactly the declared names, and the unknown children are reported |
| XmlParser.CfdEntryOrigin | Analysis/Utkscan/core/source/XmlParser.cpp:22-29 | every collected entry is that of a parameter node under some Parameters child |
| XmlParser.CfdStepValues | Analysis/Utkscan/core/source/XmlParser.cpp:26-30 | a parameter whose name was not declared before is stored under its name with its (Fraction, Delay), each 0 when its child is missing |
| XmlParser.ParseFittingNode | Analysis/Utkscan/core/source/XmlParser.cpp:48-85 | the new Globals and the outcome are those of the Fitting step applied to the old Globals |
| XmlParser.FittingStepSpec | Analysis/Utkscan/core/source/XmlParser.cpp:48-85 | only the two baseline thresholds change, with defaults 3.0 and 25.0, and they are written even when the step throws. The fitting parameters are never written. The step succeeds if and only if Parameters exists |
| XmlParser.RevisionClocks | Analysis/Utkscan/core/source/XmlParser.cpp:96-109 | a known revision gives a positive system clock period |
| XmlParser.ParseGlobalNode | Analysis/Utkscan/core/source/XmlParser.cpp:91-147 | the new Globals and the outcome are those of the Global step applied to the old Globals |
| XmlParser.ParseEventWidth | Analysis/Utkscan/core/source/XmlParser.cpp:114-146 | the part read after the revision matches the event-width step |
| XmlParser.GlobalRevisionClocks | Analysis/Utkscan/core/source/XmlParser.cpp:92-109 | revisions A and D set all three clocks to 10 ns. F sets the ADC clock to 4 ns and the system and filter clocks to 8 ns. Any other revision throws naming it and changes nothing |
| XmlParser.GlobalCriticalChildren | Analysis/Utkscan/core/source/XmlParser.cpp:92-143 | Revision, EventWidth and OutputPath are checked in that order and the first one missing is named. The step succeeds if and only if all three exist and the revision is known |
| XmlParser.GlobalHasRawFlag | Analysis/Utkscan/core/source/XmlParser.cpp:133-143 | on success the has-raw flag is OutputPath's value read as a bool (default true), whatever HasRaw said. When only OutputPath is missing, the flag is HasRaw's value (true when HasRaw is absent) |
| XmlParser.GlobalEventTicks | Analysis/Utkscan/core/source/XmlParser.cpp:114-124 | on success the event length in ticks is the event length divided by the positive system clock period, truncated |
| XmlParser.ParseRejectNode | Analysis/Utkscan/core/source/XmlParser.cpp:152-175 | the loop over the Time children returns what the rejection-region function gives for them |
| XmlParser.RejectRegionsSpec | Analysis/Utkscan/core/source/XmlParser.cpp:155-170 | the node succeeds if and only if every Time element has non-zero endpoints (a missing one reads 0) and start ≤ end. It then gives one region per element, in document order. Otherwise the first bad element is reported with its two endpoints |
| XmlParser.ParseRootNode | Analysis/Utkscan/core/source/XmlParser.cpp:180-191 | the root succeeds if and only if both Map and Global exist, and then reports its unknown children |
| XmlParser.ParseTraceNode | Analysis/Utkscan/core/source/XmlParser.cpp:197-226 | the new Globals and the outcome are those of the Trace step applied to the old Globals |
| XmlParser.ParseRanges | Analysis/Utkscan/core/source/XmlParser.cpp:228-268 | the part read after QdcCompression matches the waveform-range and trap-filter step |
| XmlParser.TraceDiscriminationDefault | Analysis/Utkscan/core/source/XmlParser.cpp:198-202 | the discrimination start is 3 when its node is missing |
| XmlParser.TraceQdcDefault | Analysis/Utkscan/core/source/XmlParser.cpp:218-222 | the QDC compression is 1.0 when its node is missing and TraceDelay is present |
| XmlParser.TraceWaveformRanges | Analysis/Utkscan/core/source/XmlParser.cpp:228-241 | on success the waveform ranges are the map built from the WaveformRange node |
| XmlParser.TraceStepFailures | Analysis/Utkscan/core/source/XmlParser.cpp:208-243 | the Trace node fails if and only if TraceDelay or WaveformRange is missing. A missing TraceDelay throws a bare string after only the discrimination start was written. A missing WaveformRange throws invalid_argument naming it |
| XmlParser.WaveformRangesSpec | Analysis/Utkscan/core/source/XmlParser.cpp:229-240 | each range is stored under its name with its Low and High (5 and 10 when missing); the first range with a name wins |
| XmlParser.TrapFiltersInverted | Analysis/Utkscan/core/source/XmlParser.cpp:245-264 | a present TrapFilters node leaves the trap filters untouched, and an absent one replaces them by the empty map |
| XmlParser.TraceDelayThrownAsString | Analysis/Utkscan/core/source/XmlParser.cpp:208-212 | a missing TraceDelay throws a std::string, not invalid_argument, and the message names the empty node |
| XmlParser.ParseVandleNode | Analysis/Utkscan/core/source/XmlParser.cpp:273-310 | the new Globals and the outcome are those of the Vandle step applied to the old Globals |
| XmlParser.VandleStepSpec | Analysis/Utkscan/core/source/XmlParser.cpp:273-300 | the Vandle node never throws and writes only the three speeds of light, defaulting to 15.22998, 15.5 and 12.65822 cm/ns |
| XmlParser.MissingNodeReportedNameless | Analysis/Utkscan/core/source/XmlParser.cpp:186-189 | a missing Map or Global, or a missing Parameters under Cfd or Fitting, throws a message built from the empty name "" |
| XmlParser.ParseRootNodeCorrected | Analysis/Utkscan/core/source/XmlParser.cpp:177-191 | the corrected root succeeds exactly as the original does, and a failure names the critical node (Map or Global) that is missing |
| XmlParser.CfdStepCorrected | Analysis/Utkscan/core/source/XmlParser.cpp:31-32 | the corrected Cfd step throws if and only if Parameters is missing, names Parameters, and otherwise equals the original step |
| XmlParser.FittingStepCorrectedStores | Analysis/Utkscan/core/source/XmlParser.cpp:71-80 | the corrected Fitting step stores every declared parameter with its Beta and Gamma (0 when missing), the first with a name winning, and names Parameters when it is missing |
| XmlParser.TraceStepCorrectedSpec | Analysis/Utkscan/core/source/XmlParser.cpp:245-264 | in the corrected Trace step every failure is an invalid_argument naming a missing node. Declared trap filters are stored, an absent TrapFilters node keeps the old filters, and success is the same as for the original step |
| XmlParser.GlobalStepCorrectedSpec | Analysis/Utkscan/core/source/XmlParser.cpp:133-143 | the corrected Global step has the original's outcome, keeps the has-raw flag HasRaw set, and stores OutputPath's value as the output path |
| XmlParser.NegativeRejectStartWraps | Analysis/Utkscan/core/source/XmlParser.cpp:157-169 | a Time element with start −5 and end 3 is accepted and stored as the region (4294967291, 3) |
| XmlParser.RejectRegionsCorrectedForward | Analysis/Utkscan/core/source/XmlParser.cpp:149-169 | with positive endpoints required, every stored region satisfies 0 < start ≤ end, one per Time element |
| RawEvents.Identifier.constructor | include/RawEvent.h:57 | an identifier holding the given type, subtype, damm number and location |
| RawEvents.Identifier.SetDammId | include/RawEvent.h:47 | GetDammID returns the value set, and only that field may change |
| RawEvents.Identifier.SetType | include/RawEvent.h:48 | GetType returns the value set, and only that field may change |
| RawEvents.Identifier.SetSubtype | include/RawEvent.h:49 | GetSubtype returns the value set, and only that field may change |
| RawEvents.Identifier.SetLocation | include/RawEvent.h:50 | GetLocation returns the value set, and only that field may change |
| RawEvents.IdentifierEqualsIsEquivalence | include/RawEvent.h:60-64 | equality on type, subtype and location is reflexive, symmetric and transitive |
| RawEvents.SetDammIdKeepsEquality | include/RawEvent.h:60-64 | the damm number takes no part in equality: changing it keeps every comparison with any identifier, itself included |
| RawEvents.ChanEvent.constructor | include/RawEvent.h:99-100 | the front end sets the read-out fields to the given values; the calibrated values and the trace information start as stated under Left out |
| RawEvents.ChanEvent.SetEnergy | include/RawEvent.h:105 | GetEnergy returns the value set, and only that field may change |
| RawEvents.ChanEvent.SetCalEnergy | include/RawEvent.h:107 | GetCalEnergy returns the value set, and only that field may change |
| RawEvents.ChanEvent.SetTime | include/RawEvent.h:108 | GetTime returns the value set, and only that field may change |
| RawEvents.ChanEvent.SetCalTime | include/RawEvent.h:109 | GetCalTime returns the value set, and only that field may change |
| RawEvents.ChanEvent.AddTraceInfo | include/RawEvent.h:110 | exactly one value is appended, it is the last one, and the earlier values are unchanged |
| RawEvents.ChanEvent.GetId | include/RawEvent.h:132-133 | module × 16 + channel. For a channel below 16, the module and channel are read back by division and remainder |
| RawEvents.GetIdIdentifiesChannel | include/RawEvent.h:132-133 | two channels on 16-channel modules have the same id if and only if they share module and channel |
| RawEvents.MaxByCalEnergy | include/RawEvent.h:140-153 | the maximum event is null or one of the listed events |
| RawEvents.MaxByCalEnergySpec | include/RawEvent.h:140-153 | the maximum event is null exactly for an empty list. Otherwise it is a listed event that no event exceeds in calibrated energy and no earlier event equals |
| RawEvents.DetectorSummary.constructor | include/RawEvent.h:155 | a new summary has no name, no events and no maximum event |
| RawEvents.DetectorSummary.Zero | include/RawEvent.h:156 | the summary forgets its events: multiplicity 0, no maximum event, same name |
| RawEvents.DetectorSummary.AddEvent | include/RawEvent.h:157 | the event is appended, the multiplicity grows by one, and the maximum event stays the maximum of the list; it carries at least the new event's energy |
| RawEvents.DetectorSummary.SetName | include/RawEvent.h:159 | GetName returns the value set, and only that field may change |
| RawEvents.SummaryMaxEvent | include/RawEvent.h:140-168 | the maximum event exists if and only if the multiplicity is positive; it is a listed channel that no listed channel exceeds in calibrated energy |
| RawEvents.RawEvent.constructor | include/RawEvent.h:194 | a new raw event has no channels, summaries or used detectors |
| RawEvents.RawEvent.AddChan | include/RawEvent.h:198 | the channel is appended to the event list and nothing else changes |
| Coincidence.SelectSpec | Analysis/Utkscan/experiment/source/NaICoincidenceProcessor.cpp:100-117 | a hit is in a channel's list if and only if it is in the event and on that channel; event order is kept |
| Coincidence.Truncated | Analysis/Utkscan/experiment/source/NaICoincidenceProcessor.cpp:101-106 | one eventProc record per hit: its time, its energy truncated to int, its slot and its channel |
| Coincidence.Energies | Analysis/Utkscan/experiment/source/NaICoincidenceProcessor.cpp:107 | the plotted energies are those of the records, in order |
| Coincidence.Partition | Analysis/Utkscan/experiment/source/NaICoincidenceProcessor.cpp:95-118 | the loop over the event builds the start and stop lists as the truncated records of the hits on ch1 and ch2, in event order, and plots their energies |
| Coincidence.DrainWithinWindow | Analysis/Utkscan/experiment/source/NaICoincidenceProcessor.cpp:119-142 | the front-erasing loop computes the window rule: its pairs, what remains of each list, and its number of rounds |
| Coincidence.DrainStartFirst | Analysis/Utkscan/experiment/source/TimeDifferenceProcessor.cpp:144-162 | the front-erasing loop computes the start-first rule |
| Coincidence.WindowDrainEnds | Analysis/Utkscan/experiment/source/NaICoincidenceProcessor.cpp:119-142 | the window loop ends with at least one list empty, and what remains of each list is a suffix of it |
| Coincidence.WindowDrainCounts | Analysis/Utkscan/experiment/source/NaICoincidenceProcessor.cpp:119-142 | each round removes one front, or two when it pairs them. So there are at most \|start\|+\|stop\| rounds, and at most as many pairs as hits removed from either list |
| Coincidence.WindowDrainPairs | Analysis/Utkscan/experiment/source/NaICoincidenceProcessor.cpp:126-133 | every pair is within the window, and the pairs take start hits in start-list order and stop hits in stop-list order |
| Coincidence.WindowDrainSameList | Analysis/Utkscan/experiment/source/NaICoincidenceProcessor.cpp:57-58 | with start and stop the same list and a positive window, every hit is paired with itself and nothing is left over |
| Coincidence.EarlierDrainEnds | Analysis/Utkscan/experiment/source/TimeDifferenceProcessor.cpp:144-162 | the start-first loop ends with at least one list empty, and what remains of each list is a suffix of it |
| Coincidence.EarlierDrainCounts | Analysis/Utkscan/experiment/source/TimeDifferenceProcessor.cpp:151-161 | each round removes one stop hit, and a start hit is removed only in a pair. So there are at most \|stop\| rounds and at most as many pairs as rounds |
| Coincidence.EarlierDrainForward | Analysis/Utkscan/experiment/source/TimeDifferenceProcessor.cpp:151-157 | in every pair the start time is strictly before the stop time |
| Coincidence.EarlierDrainInOrder | Analysis/Utkscan/experiment/source/TimeDifferenceProcessor.cpp:151-161 | the pairs take start hits in start-list order and stop hits in stop-list order |
| Coincidence.WindowDrainPairOrigin | Analysis/Utkscan/experiment/source/NaICoincidenceProcessor.cpp:126-133 | the k-th pair is (start[i], stop[j]) for some i and j, with the two within the window |
| Coincidence.EarlierDrainPairOrigin | Analysis/Utkscan/experiment/source/TimeDifferenceProcessor.cpp:151-157 | the k-th pair is (start[i], stop[j]) for some i and j, with start[i] strictly earlier |
| NaICoincidence.NaICoincidenceProcessor.constructor | Analysis/Utkscan/experiment/source/NaICoincidenceProcessor.cpp:56-62 | start channel 1, stop channel 1, a 1 ms window, associated type NaI |
| NaICoincidence.NaICoincidenceProcessor.WithChannels | Analysis/Utkscan/experiment/source/NaICoincidenceProcessor.cpp:64-71 | the given channels and window, associated type NaI |
| NaICoincidence.NaICoincidenceProcessor.Process | Analysis/Utkscan/experiment/source/NaICoincidenceProcessor.cpp:88-145 | a refused event returns false and plots nothing. An accepted one returns true and plots the NaI plots for a window of timeWindowInMs × 250000 ticks |
| NaICoincidence.KeepIf | Analysis/Utkscan/experiment/source/NaICoincidenceProcessor.cpp:128-130 | the energies that pass the guard, kept in order |
| NaICoincidence.GuardAsWrittenKeepsAll | Analysis/Utkscan/experiment/source/NaICoincidenceProcessor.cpp:128-130 | the guard as written keeps every energy |
| NaICoincidence.NaIPlotCounts | Analysis/Utkscan/experiment/source/NaICoincidenceProcessor.cpp:100-133 | each channel histogram gets one entry per hit on that channel, and there are at most as many coincidences as entries on either histogram |
| NaICoincidence.NaIMatchedAreCoincidences | Analysis/Utkscan/experiment/source/NaICoincidenceProcessor.cpp:126-130 | each plotted coincidence is the truncated energy of a ch1 hit within the window of a ch2 hit |
| NaICoincidence.NaISameChannel | Analysis/Utkscan/experiment/source/NaICoincidenceProcessor.cpp:57-59 | with start and stop on one channel (the default) and a positive window, the coincidence plot equals that channel's plot |
| NaICoincidence.GarbageEnergiesPassGuard | Analysis/Utkscan/experiment/source/NaICoincidenceProcessor.cpp:128 | energies −1 and 16384 pass the guard as written but fail the intended range check |
| NaICoincidence.NaIPlotsCorrected | Analysis/Utkscan/experiment/source/NaICoincidenceProcessor.cpp:127-130 | with the intended guard, only coincidences in [0, 16384) are plotted, in the order found. The channel plots are unchanged |
| MultiChannelCoincidence.Touch | Analysis/Utkscan/experiment/source/MultiChannelCoincidenceProcessor.cpp:130-131 | `allDataMap[key]` used for reading adds the key if it is missing and changes no kept list |
| MultiChannelCoincidence.PairChannelLists | Analysis/Utkscan/experiment/source/MultiChannelCoincidenceProcessor.cpp:59-67 | the lists are paired index by index if and only if both are non-empty and of equal length; otherwise no pair is configured |
| MultiChannelCoincidence.SetupRootOutputReadsMissingPair | Analysis/Utkscan/experiment/source/MultiChannelCoincidenceProcessor.cpp:45-51 | the default constructor, and lists that are empty or of different lengths, configure no pair, so the first-pair read is out of range |
| MultiChannelCoincidence.BranchKey | Analysis/Utkscan/experiment/source/MultiChannelCoincidenceProcessor.cpp:88 | the branch key is absent exactly when no pair is configured; otherwise it is "start stop" of the first pair |
| MultiChannelCoincidence.MultiChannelCoincidenceProcessor.constructor | Analysis/Utkscan/experiment/source/MultiChannelCoincidenceProcessor.cpp:45-51 | no configured pair, empty kept data, a 1 ms window, associated type NaI |
| MultiChannelCoincidence.MultiChannelCoincidenceProcessor.WithLists | Analysis/Utkscan/experiment/source/MultiChannelCoincidenceProcessor.cpp:54-73 | the pairs of the two lists, empty kept data, and the given window |
| MultiChannelCoincidence.MultiChannelCoincidenceProcessor.Process | Analysis/Utkscan/experiment/source/MultiChannelCoincidenceProcessor.cpp:94-165 | a refused event changes nothing. An accepted one adds its hits to the kept data, reads every configured key, and records the window-rule coincidences of each pair for a window of timeWindowInMs × 1000 |
| MultiChannelCoincidence.MultiChannelCoincidenceProcessor.KeepHits | Analysis/Utkscan/experiment/source/MultiChannelCoincidenceProcessor.cpp:102-126 | each hit is appended, in event order, under the decimal string of its channel |
| MultiChannelCoincidence.MultiChannelCoincidenceProcessor.ReadPair | Analysis/Utkscan/experiment/source/MultiChannelCoincidenceProcessor.cpp:130-131 | the copies are the kept start and stop lists; the map gains only the missing keys |
| MultiChannelCoincidence.MultiChannelCoincidenceProcessor.MatchPairs | Analysis/Utkscan/experiment/source/MultiChannelCoincidenceProcessor.cpp:128-161 | the recorded values are those of each configured pair, in pair order, and the map only gains the configured keys |
| MultiChannelCoincidence.AccumulateChannel | Analysis/Utkscan/experiment/source/MultiChannelCoincidenceProcessor.cpp:102-126 | after an event a channel's kept list is the old list followed by the event's hits on that channel, in event order |
| MultiChannelCoincidence.AccumulateGrows | Analysis/Utkscan/experiment/source/MultiChannelCoincidenceProcessor.cpp:110-125 | no key is removed, and every kept list is a prefix of the list kept afterwards |
| MultiChannelCoincidence.AccumulateKeys | Analysis/Utkscan/experiment/source/MultiChannelCoincidenceProcessor.cpp:110-118 | the keys after an event are the old keys plus the rendering of every hit's channel |
| MultiChannelCoincidence.TouchAllSpec | Analysis/Utkscan/experiment/source/MultiChannelCoincidenceProcessor.cpp:130-131 | reading the configured keys adds exactly the missing ones, each with an empty list, and changes no kept list |
| MultiChannelCoincidence.ProcessKeepsData | Analysis/Utkscan/experiment/source/MultiChannelCoincidenceProcessor.cpp:94-131 | across a whole call every key survives, and every kept list is a prefix of its list afterwards |
| MultiChannelCoincidence.PairRecordedBounds | Analysis/Utkscan/experiment/source/MultiChannelCoincidenceProcessor.cpp:132-160 | a configured pair records at most as many values as it has kept start hits, and as kept stop hits |
| MultiChannelCoincidence.RecordedSplit | Analysis/Utkscan/experiment/source/MultiChannelCoincidenceProcessor.cpp:128-161 | the values of a list of pairs are those of its first part followed by those of its second part |
| MultiChannelCoincidence.PairRecordedOrigin | Analysis/Utkscan/experiment/source/MultiChannelCoincidenceProcessor.cpp:135-146 | each recorded value is the energy of a kept start hit within the window of a kept stop hit |
| TimeDifference.TimeDifferenceProcessor.constructor | Analysis/Utkscan/experiment/source/TimeDifferenceProcessor.cpp:60-67 | start channel 0, stop channel 1, a 1 ms window, associated type NaI |
| TimeDifference.TimeDifferenceProcessor.WithChannels | Analysis/Utkscan/experiment/source/TimeDifferenceProcessor.cpp:69-79 | the given channels and window, associated type NaI |
| TimeDifference.TimeDifferenceProcessor.Process | Analysis/Utkscan/experiment/source/TimeDifferenceProcessor.cpp:98-166 | a refused event plots nothing. An accepted one plots the channel energies and one difference per start-first pair; the window plays no part |
| TimeDifference.Differences | Analysis/Utkscan/experiment/source/TimeDifferenceProcessor.cpp:153 | one value per pair: stop time minus start time, truncated to int |
| TimeDifference.DifferencesNonNegative | Analysis/Utkscan/experiment/source/TimeDifferenceProcessor.cpp:151-157 | every plotted difference is ≥ 0, and there are at most as many as hits on either channel |
| TimeDifference.DifferenceOrigin | Analysis/Utkscan/experiment/source/TimeDifferenceProcessor.cpp:151-157 | each difference is that of a ch1 hit strictly before a ch2 hit |
| TimeSpectrum.TimeSpectrumGenerator.constructor | Analysis/Utkscan/experiment/source/TimeSpectrumGenerator.cpp:61-66 | start channel 0, stop channel 1, associated type NaI |
| TimeSpectrum.TimeSpectrumGenerator.WithChannels | Analysis/Utkscan/experiment/source/TimeSpectrumGenerator.cpp:68-76 | the given channels, associated type NaI |
| TimeSpectrum.TimeSpectrumGenerator.Process | Analysis/Utkscan/experiment/source/TimeSpectrumGenerator.cpp:95-146 | a refused event emits nothing. An accepted one gives the plots and emissions of reading the event hit by hit, starting from empty buffers |
| TimeSpectrum.TimeSpectrumGenerator.Flush | Analysis/Utkscan/experiment/source/TimeSpectrumGenerator.cpp:122-140 | when both buffers hold a time, the inner loop emits the latest start and the latest stop minus 300 and clears both; otherwise it changes nothing |
| TimeSpectrum.StepEmitsAtMostOnce | Analysis/Utkscan/experiment/source/TimeSpectrumGenerator.cpp:122-140 | a hit adds at most one emission and keeps the earlier ones; afterwards at least one buffer is empty |
| TimeSpectrum.ChannelPlots | Analysis/Utkscan/experiment/source/TimeSpectrumGenerator.cpp:112-121 | each channel histogram holds the truncated energy of every hit on the channel, in event order |
| TimeSpectrum.EmissionCount | Analysis/Utkscan/experiment/source/TimeSpectrumGenerator.cpp:112-140 | each emission uses up a buffered start and a buffered stop, so there are at most as many emissions as hits on either channel |
| TimeSpectrum.SameChannelSpectrum | Analysis/Utkscan/experiment/source/TimeSpectrumGenerator.cpp:122-139 | with start and stop on one channel, every hit on it is emitted at once with difference −300 and plotted value 0 |
| TimeSpectrum.BufferOrigin | Analysis/Utkscan/experiment/source/TimeSpectrumGenerator.cpp:106-121 | the latest buffered time is 8 × the time of an earlier hit on that buffer's channel |
| TimeSpectrum.EmissionOrigin | Analysis/Utkscan/experiment/source/TimeSpectrumGenerator.cpp:124-136 | emission k is made at hit n from hit i on ch1 and hit j on ch2, with i, j ≤ n and hit n one of them. tStart = 8·tᵢ and tStop = 8·tⱼ − 300, and the plotted value 300 + tDiff equals 8·(tⱼ − tᵢ) |

## Left out

- File output: the `fopen`/`fprintf` lines that append to `./example.txt` are output only and are not modelled.
- ROOT and histograms:
  - `RegisterTree`, `RegisterBranch`, `tree_->Fill`, `histo.Plot` and `DeclarePlots` are calls into ROOT and the histogram library. Their effect is returned as the plotted and emitted sequences.
  - The two-dimensional start-versus-stop plot is carried by each emission's start and stop times.
  - `SetupRootOutput` is modelled only through the multi-channel branch key.
  - MultiChannelCoincidence.MultiChannelCoincidenceProcessor.constructor and MultiChannelCoincidence.MultiChannelCoincidenceProcessor.WithLists set the branch key with the corrected `BranchKey`. In the source both call `SetupRootOutput` (MultiChannelCoincidenceProcessor.cpp:50, 72), which reads `startStopChannels[0]` unconditionally, out of range for the default constructor. That read appears only in `BranchKeyAsWritten` and `SetupRootOutputReadsMissingPair`. The source also discards the key after registering the branch, so the `branchKey` field stands for a local value that is not used again.
- The static `tStart`, `tStop`, `tDiff` and `coincidenceData` of the processors are modelled as the emitted or recorded sequences. Their values after a call are the last elements.
- `EventProcessor::Process` and `EndProcess`: the base class is not part of this model. Its answer is the `accepted` parameter.
- Reading the hits: `GetChannelNumber`, `GetChanID().GetLocation()`, `GetTime`, `GetEnergy` and `HighResTimingData::GetHighResTimeInNs` are abstracted as the four fields of a hit record, taken as inputs.
- Logging: `messenger_` and `sstream_` are not modelled. The names of unknown children that would be logged are returned instead.
- pugixml:
  - The numeric readings of attribute text (`as_int`, `as_double`) are taken as given in `Attr`.
  - XmlParser.ChildValueUInt: `as_uint` (DiscriminationStart and TraceDelay, XmlParser.cpp:200, 210) is modelled as the integer reading converted to unsigned int, so a negative value wraps around modulo 2^32. pugixml parses the text as an unsigned number, and its current versions clamp a negative value to 0. The wrap is an assumption of the model. For the waveform Low and High (`as_int` stored as unsigned int) the wrap is the C++ conversion itself.
  - `as_bool` is modelled by its first-character rule.
  - `it->path()` in the warnings is not modelled.
- `Conversions::ConvertSecondsWithPrefix` is not part of this model. It is the `convert` parameter of the Global step.
- Globals.hpp is not part of this model. `Globals` holds only the settings the parser writes, and its getters are not modelled.
- `ParseDescriptionNode`: it returns the node's text unchanged and is not part of the modelled core.
- Floating point: times, clock periods, thresholds and energies are `real`. IEEE rounding is not modelled.
- Integer widths:
  - Coincidence.Truncated: `int(energy)` is truncation toward zero without the 32-bit range. Energies outside the int range (undefined in C++) are not modelled.
  - TimeDifference.Differences: the difference is truncated without the 32-bit range, for the same reason.
  - XmlParser.GlobalEventTicks: the `(unsigned int)` conversion is modelled as truncation toward zero without the 32-bit range. A negative or oversized quotient is undefined behaviour in C++ and is not modelled.
  - RawEvents.ChanEvent.GetId: module × 16 + channel is unbounded; int overflow is not modelled.
  - The `unsigned long` fields of a channel event are `nat`, without the 64-bit range.
- RawEvent.cpp is not part of this model:
  - `DetectorSummary::AddEvent` is modelled from the doc comments of `DetectorSummary`. It keeps the event with the largest calibrated energy, and the earlier event on a tie.
  - `DetectorSummary()`, `DetectorSummary::Zero`, `RawEvent()` and `RawEvent::AddChan` are modelled from their names and comments.
  - The `Identifier` and `ChanEvent` constructors take field values, because the default constructors' bodies and `ZeroVar`/`ZeroNums` are not available.
  - RawEvents.ChanEvent.constructor: the starting values of the calibrated energy and time (0) and of the trace information (empty) are assumed, not read from the source. `ChanEvent()` and `ZeroVar()` are only declared in RawEvent.h:136-137.
  - `GetTraceInfo` is modelled as reading the a-th value, defined only for an index below the length.
- RawEvent and Identifier members outside the modelled core: `RawEvent::Clear`, `Init`, `Zero(set)`, `GetSummary`, the `Correlator`, `GetChanID` and `Identifier::Zero`.
- The unused local `coincidenceSpectrum` array (NaI) and the unused local vectors in the time-difference and time-spectrum constructors have no effect and are not modelled.
- The processor headers declare constructor signatures that differ from the `.cpp` files. The `.cpp` constructors are modelled.

## Findings

Each row's as-written member models the code as written; the corrected member beside it carries the evidently intended property. The parse and process methods follow the code as written. The multi-channel processor's constructors use the corrected branch key.

| source | as written | input that shows it | evidently intended | confidence | as-written member | corrected member |
|---|---|---|---|---|---|---|
| Analysis/Utkscan/core/source/XmlParser.cpp:186-189 | a missing Map or Global (and a missing Parameters at lines 32 and 80) is reported with `node.child(X).name()` of the node that was not found, which is "" | a root node without a Map child | the message names Map (Global, Parameters) | high, not executed | XmlParser.MissingNodeReportedNameless | XmlParser.ParseRootNodeCorrected |
| Analysis/Utkscan/core/source/XmlParser.cpp:208-212 | a missing TraceDelay throws a bare std::string built from the empty name | a Trace node without TraceDelay | throw invalid_argument naming TraceDelay, like the other critical nodes | high, not executed | XmlParser.TraceDelayThrownAsString | XmlParser.TraceStepCorrectedSpec |
| Analysis/Utkscan/core/source/XmlParser.cpp:71-80 | the fitting parameters are collected into a local map that is then dropped | a Fitting node whose Parameters child declares a parameter with Beta 1 | the parameters are stored in Globals | medium, not executed | XmlParser.FittingStepSpec | XmlParser.FittingStepCorrectedStores |
| Analysis/Utkscan/core/source/XmlParser.cpp:245 | `if(!node.child("TrapFilters"))` reads the filters only when the node is absent, which wipes them | a Trace node with a TrapFilters child declaring one filter | read the declared filters when the node is present | high, not executed | XmlParser.TrapFiltersInverted | XmlParser.TraceStepCorrectedSpec |
| Analysis/Utkscan/core/source/XmlParser.cpp:139-141 | OutputPath's value is written to the has-raw flag | a Global node with HasRaw value "true" and OutputPath value "/data": the flag ends false | store the output path and keep HasRaw's flag | high, not executed | XmlParser.GlobalHasRawFlag | XmlParser.GlobalStepCorrectedSpec |
| Analysis/Utkscan/core/source/XmlParser.cpp:157-169 | a negative start passes the check and wraps when stored as unsigned | a Time element with start −5 and end 3 is stored as (4294967291, 3) | reject non-positive endpoints so that every region runs forward | medium, not executed | XmlParser.NegativeRejectStartWraps | XmlParser.RejectRegionsCorrectedForward |
| Analysis/Utkscan/experiment/source/NaICoincidenceProcessor.cpp:128 | the garbage-data guard `e < coincidenceRange \|\| e >= 0` holds for every energy | a coincidence whose start energy is −1 or 16384 | plot only energies with 0 ≤ e < 16384 | high, not executed | NaICoincidence.GarbageEnergiesPassGuard | NaICoincidence.NaIPlotsCorrected |
| Analysis/Utkscan/experiment/source/MultiChannelCoincidenceProcessor.cpp:88 | setting up the output reads `startStopChannels[0]` whether or not a pair is configured | the default constructor, which configures no pair | build the branch key only when a pair exists | high, not executed | MultiChannelCoincidence.SetupRootOutputReadsMissingPair | MultiChannelCoincidence.BranchKey |
