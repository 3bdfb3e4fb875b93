/** The process-wide configuration object (Globals) that the XML parser fills in through
    its setters. Only the settings the parser writes are modelled. Times are in seconds,
    speeds in cm/ns. */
module Configuration {

  datatype TrapFilterParameters = TrapFilterParameters(l: real, g: real, t: real)

  /** A value snapshot of every setting the parser can write. */
  datatype Settings = Settings(
    adcClockInSeconds: real,
    clockInSeconds: real,
    filterClockInSeconds: real,
    eventLengthInSeconds: real,
    eventLengthInTicks: int,
    hasRawHistogramsDefined: bool,
    outputPath: string,
    cfdParameters: map<string, (real, real)>,
    sigmaBaselineThresh: real,
    siPmSigmaBaselineThresh: real,
    fittingParameters: map<string, (real, real)>,
    discriminationStart: int,
    traceDelay: int,
    qdcCompression: real,
    waveformRanges: map<string, (int, int)>,
    trapFilterParameters: map<string, (TrapFilterParameters, TrapFilterParameters)>,
    vandleBigSpeedOfLight: real,
    vandleMediumSpeedOfLight: real,
    vandleSmallSpeedOfLight: real)

  class Globals {
    var adcClockInSeconds: real
    var clockInSeconds: real
    var filterClockInSeconds: real
    var eventLengthInSeconds: real
    var eventLengthInTicks: int
    var hasRawHistogramsDefined: bool
    var outputPath: string
    var cfdParameters: map<string, (real, real)>
    var sigmaBaselineThresh: real
    var siPmSigmaBaselineThresh: real
    var fittingParameters: map<string, (real, real)>
    var discriminationStart: int
    var traceDelay: int
    var qdcCompression: real
    var waveformRanges: map<string, (int, int)>
    var trapFilterParameters: map<string, (TrapFilterParameters, TrapFilterParameters)>
    var vandleBigSpeedOfLight: real
    var vandleMediumSpeedOfLight: real
    var vandleSmallSpeedOfLight: real

    function Snapshot(): Settings
      reads this
    {
      Settings(adcClockInSeconds, clockInSeconds, filterClockInSeconds,
               eventLengthInSeconds, eventLengthInTicks,
               hasRawHistogramsDefined, outputPath, cfdParameters,
               sigmaBaselineThresh, siPmSigmaBaselineThresh, fittingParameters,
               discriminationStart, traceDelay, qdcCompression,
               waveformRanges, trapFilterParameters,
               vandleBigSpeedOfLight, vandleMediumSpeedOfLight, vandleSmallSpeedOfLight)
    }

    /** Globals in whatever state the program is in when parsing starts. */
    constructor (s: Settings)
      ensures Snapshot() == s
    {
      adcClockInSeconds, clockInSeconds, filterClockInSeconds := s.adcClockInSeconds, s.clockInSeconds, s.filterClockInSeconds;
      eventLengthInSeconds, eventLengthInTicks := s.eventLengthInSeconds, s.eventLengthInTicks;
      hasRawHistogramsDefined, outputPath := s.hasRawHistogramsDefined, s.outputPath;
      cfdParameters := s.cfdParameters;
      sigmaBaselineThresh, siPmSigmaBaselineThresh := s.sigmaBaselineThresh, s.siPmSigmaBaselineThresh;
      fittingParameters := s.fittingParameters;
      discriminationStart, traceDelay, qdcCompression := s.discriminationStart, s.traceDelay, s.qdcCompression;
      waveformRanges, trapFilterParameters := s.waveformRanges, s.trapFilterParameters;
      vandleBigSpeedOfLight, vandleMediumSpeedOfLight, vandleSmallSpeedOfLight :=
        s.vandleBigSpeedOfLight, s.vandleMediumSpeedOfLight, s.vandleSmallSpeedOfLight;
    }
  }
}
