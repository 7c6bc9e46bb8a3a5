/** The command builders of the Keysight/Agilent 33600A driver (`Agilent33600A`).

    Each `A33Configure*` method validates its arguments (pydantic `Field` bounds and the
    channel literal 1 or 2: here `requires` clauses), accumulates one command string
    clause by clause and writes it once.  Each builder here returns the clauses in the
    order they are appended; the string written is `Concat` of them (upper-cased for the
    sweep builder).  Numbers are rendered by the uninterpreted formatters of `Formats`. */
module Agilent33600A {
  import opened Python
  import opened Scpi

  /** `ChannelType = Literal[1, 2]` */
  predicate IsChannel(channel: int) { channel == 1 || channel == 2 }

  function Ch(channel: int): string { IntToString(channel) }

  function OnOff(b: bool): string { if b then "ON" else "OFF" }

  const ModulationSources: seq<string> := ["INT", "EXT", "CH1", "CH2"]
  const ModulationWaveforms: seq<string> := ["SIN", "SQU", "TRI", "RAMP", "NRAM", "NOIS", "PRBS", "ARB"]
  const StandardWaveforms: seq<string> := ["SIN", "SQU", "PULS", "RAMP", "NOIS", "DC", "PRBS", "TRI"]
  const ArbFilters: seq<string> := ["OFF", "STEP", "NORM"]
  const ArbRateKinds: seq<string> := ["FREQ", "SRAT", "PER"]
  const TriggerSources: seq<string> := ["IMM", "TIM", "EXT", "BUS"]
  const TriggerSlopes: seq<string> := ["POS", "NEG"]
  const SweepSpacings: seq<string> := ["LIN", "LOG"]

  /** A clause addressed to `subsystem` of `channel`, with or without the root colon. */
  function Clause(key: string, root: bool, subsystem: string, channel: int, rest: string): (p: Piece)
    ensures p.key == key && Addressed(p, subsystem, channel)
  {
    Piece(key, (if root then ":" else "") + subsystem + Ch(channel) + rest)
  }

  predicate Addressed(p: Piece, subsystem: string, channel: int) {
    StartsWith(p.text, subsystem + Ch(channel)) || StartsWith(p.text, ":" + subsystem + Ch(channel))
  }

  /** Every clause is addressed to the channel it was given (under `subsystem`, with or
      without the leading root colon). */
  predicate AllAddressed(ps: seq<Piece>, subsystem: string, channel: int) {
    forall i :: 0 <= i < |ps| ==> Addressed(ps[i], subsystem, channel)
  }

  // ---------------------------------------------------------------------------
  // A33ConfigureAM
  // ---------------------------------------------------------------------------

  function ConfigureAm(f: Formats, channel: int, amSource: int, modulationWaveform: int,
                       modulationFrequency: real, enableCarrierSupression: bool,
                       enableAmplitudeModulation: bool, modulationDepth: real): (ps: seq<Piece>)
    requires IsChannel(channel)
    requires 0 <= amSource <= 3 && 0 <= modulationWaveform <= 7
    requires modulationFrequency > 0.0 && 0.0 <= modulationDepth <= 120.0
    ensures AllAddressed(ps, "SOUR", channel)
  {
    [Clause("AM:STAT", false, "SOUR", channel, ":AM:STAT " + OnOff(enableAmplitudeModulation) + ";"),
     Clause("AM:SOUR", true, "SOUR", channel, ":AM:SOUR " + ModulationSources[amSource] + ";")]
    + (if amSource == 0 then
         [Clause("AM:INT:FUNC", true, "SOUR", channel, ":AM:INT:FUNC " + ModulationWaveforms[modulationWaveform] + ";"),
          Clause("AM:INT:FREQ", true, "SOUR", channel, ":AM:INT:FREQ " + f.g12(modulationFrequency) + ";")]
       else [])
    + [Clause("AM:DEPT", true, "SOUR", channel, ":AM:DEPT " + f.g12(modulationDepth) + ";"),
       Clause("AM:DSSC", true, "SOUR", channel, ":AM:DSSC " + OnOff(enableCarrierSupression) + ";")]
  }

  /** The internal modulating function and frequency are set only for the INT source. */
  lemma AmInternalClauses(f: Formats, channel: int, amSource: int, modulationWaveform: int,
                          modulationFrequency: real, enableCarrierSupression: bool,
                          enableAmplitudeModulation: bool, modulationDepth: real)
    requires IsChannel(channel)
    requires 0 <= amSource <= 3 && 0 <= modulationWaveform <= 7
    requires modulationFrequency > 0.0 && 0.0 <= modulationDepth <= 120.0
    ensures var ps := ConfigureAm(f, channel, amSource, modulationWaveform, modulationFrequency,
                                  enableCarrierSupression, enableAmplitudeModulation, modulationDepth);
            (HasKey(ps, "AM:INT:FUNC") <==> amSource == 0) && (HasKey(ps, "AM:INT:FREQ") <==> amSource == 0)
            && HasKey(ps, "AM:STAT") && HasKey(ps, "AM:DEPT") && HasKey(ps, "AM:DSSC")
  {
    var ps := ConfigureAm(f, channel, amSource, modulationWaveform, modulationFrequency,
                          enableCarrierSupression, enableAmplitudeModulation, modulationDepth);
    assert ps[0].key == "AM:STAT";
    assert ps[|ps| - 2].key == "AM:DEPT" && ps[|ps| - 1].key == "AM:DSSC";
    if amSource == 0 {
      assert ps[2].key == "AM:INT:FUNC" && ps[3].key == "AM:INT:FREQ";
    }
  }

  // ---------------------------------------------------------------------------
  // A33ConfigureARB
  // ---------------------------------------------------------------------------

  /** The file name stored by a negative or zero `arb_number`. */
  function ArbFile(arbNumber: int): string {
    "\"INT:\\332XX_ARBS\\ARBF" + IntToString(if arbNumber < 0 then -arbNumber else arbNumber) + ".ARB\""
  }

  /** The ARB selection clause as the source writes it: the positive branch puts the
      format spec outside the braces, so the literal text ":.0f" follows the number. */
  function ArbSelectionAsWritten(channel: int, arbNumber: int): (p: Piece)
    requires IsChannel(channel)
    ensures arbNumber > 0 ==> EndsWith(p.text, ":.0f;:")
  {
    var arbString := if arbNumber > 0 then IntToString(arbNumber) + ":.0f" else ArbFile(arbNumber);
    Clause("FUNC:ARB", true, "SOUR", channel, ":FUNC:ARB ARB" + arbString + ";:")
  }

  /** For ARB memory 5 the source selects "ARB5:.0f", a name nothing stores under. */
  lemma ArbSelectionAsWrittenExample()
    ensures ArbSelectionAsWritten(1, 5).text == ":SOUR1:FUNC:ARB ARB5:.0f;:"
    ensures ArbSelectionAsWritten(1, 5) != ArbSelection(1, 5)
  {
  }

  /** The ARB selection clause as evidently intended (`f'{arb_number:.0f}'`): a positive
      number selects the memory `ARB<n>`, the name the DAC upload stores under. */
  function ArbSelection(channel: int, arbNumber: int): (p: Piece)
    requires IsChannel(channel)
    ensures arbNumber > 0 ==> p.text == ":SOUR" + Ch(channel) + ":FUNC:ARB ARB" + IntToString(arbNumber) + ";:"
    ensures arbNumber <= 0 ==> p.text == ":SOUR" + Ch(channel) + ":FUNC:ARB ARB" + ArbFile(arbNumber) + ";:"
  {
    var arbString := if arbNumber > 0 then IntToString(arbNumber) else ArbFile(arbNumber);
    Clause("FUNC:ARB", true, "SOUR", channel, ":FUNC:ARB ARB" + arbString + ";:")
  }

  function ConfigureArb(f: Formats, channel: int, arbNumber: int, amplitude: real, fSrP: int,
                        phase: real, filterKey: int, dcOffset: real, advanceMode: bool,
                        freqSampleRatePeriod: real): (ps: seq<Piece>)
    requires IsChannel(channel)
    requires amplitude >= 0.0 && 0 <= fSrP <= 2 && -360.0 <= phase <= 360.0
    requires 0 <= filterKey <= 2 && freqSampleRatePeriod > 0.0
    ensures AllAddressed(ps, "SOUR", channel)
  {
    [ArbSelection(channel, arbNumber),
     Clause("FUNC", false, "SOUR", channel, ":FUNC ARB;:"),
     Clause("FUNC ARB:FILT", false, "SOUR", channel, ":FUNC ARB:FILT " + ArbFilters[filterKey] + ";:"),
     Clause("FUNC ARB:ADV", false, "SOUR", channel, ":FUNC ARB:ADV " + (if advanceMode then "TRIG" else "SRAT") + ";:"),
     Clause("VOLT", false, "SOUR", channel, ":VOLT " + f.g12(amplitude) + ";:"),
     Clause("VOLT:OFFS", false, "SOUR", channel, ":VOLT:OFFS " + f.g12(dcOffset) + ";:"),
     Clause("FUNC ARB:" + ArbRateKinds[fSrP], false, "SOUR", channel,
            ":FUNC ARB:" + ArbRateKinds[fSrP] + " " + f.g12(freqSampleRatePeriod) + ";:")]
    + (if -360.0 <= phase < 360.0 then [Clause("PHASE:ARB", false, "SOUR", channel, ":PHASE:ARB " + f.g12(phase) + ";:")] else [])
  }

  /** The ARB phase clause is sent exactly when -360 <= phase < 360; within the validated
      range that leaves out only phase = 360. */
  lemma ArbPhaseClause(f: Formats, channel: int, arbNumber: int, amplitude: real, fSrP: int,
                       phase: real, filterKey: int, dcOffset: real, advanceMode: bool,
                       freqSampleRatePeriod: real)
    requires IsChannel(channel)
    requires amplitude >= 0.0 && 0 <= fSrP <= 2 && -360.0 <= phase <= 360.0
    requires 0 <= filterKey <= 2 && freqSampleRatePeriod > 0.0
    ensures var ps := ConfigureArb(f, channel, arbNumber, amplitude, fSrP, phase, filterKey,
                                   dcOffset, advanceMode, freqSampleRatePeriod);
            (HasKey(ps, "PHASE:ARB") <==> phase != 360.0) && ps[0] == ArbSelection(channel, arbNumber)
  {
    var ps := ConfigureArb(f, channel, arbNumber, amplitude, fSrP, phase, filterKey,
                           dcOffset, advanceMode, freqSampleRatePeriod);
    if phase != 360.0 {
      assert ps[7].key == "PHASE:ARB";
    } else {
      assert |ps| == 7;
      forall i | 0 <= i < |ps| ensures ps[i].key != "PHASE:ARB" {
        assert |ps[i].key| != |"PHASE:ARB"| || ps[i].key[0] != 'P';
      }
    }
  }

  // ---------------------------------------------------------------------------
  // A33ConfigureBurst
  // ---------------------------------------------------------------------------

  function ConfigureBurst(f: Formats, channel: int, burstMode: bool, burstPhase: real,
                          burstCount: int, gatePolarity: bool, internalPeriod: real,
                          enableBurst: bool): (ps: seq<Piece>)
    requires IsChannel(channel)
    requires -360.0 <= burstPhase <= 360.0 && burstCount >= 1 && internalPeriod > 0.0
    ensures AllAddressed(ps, "SOUR", channel)
  {
    if enableBurst then
      (if burstMode then
         [Clause("BURS:MODE", false, "SOUR", channel, ":BURS:MODE GAT;:"),
          Clause("BURS:GATE:POL", false, "SOUR", channel, ":BURS:GATE:POL " + (if gatePolarity then "INV" else "NORM") + ";:"),
          Clause("BURS:INT:PER", false, "SOUR", channel, ":BURS:INT:PER " + f.g12(internalPeriod) + ";:")]
       else
         [Clause("BURS:MODE", false, "SOUR", channel, ":BURS:MODE TRIG;:"),
          Clause("BURS:PHAS", false, "SOUR", channel, ":BURS:PHAS " + f.g12(burstPhase) + ";:"),
          Clause("BURS:NCYC", false, "SOUR", channel, ":BURS:NCYC " + IntToString(burstCount) + ";:")])
      + [Clause("BURS:STAT", false, "SOUR", channel, ":BURS:STAT ON")]
    else
      [Clause("BURS:STAT", false, "SOUR", channel, ":BURS:STAT OFF")]
  }

  /** Disabling sends exactly `SOUR<ch>:BURS:STAT OFF`. */
  lemma BurstDisabled(f: Formats, channel: int, burstMode: bool, burstPhase: real,
                      burstCount: int, gatePolarity: bool, internalPeriod: real)
    requires IsChannel(channel)
    requires -360.0 <= burstPhase <= 360.0 && burstCount >= 1 && internalPeriod > 0.0
    ensures Concat(ConfigureBurst(f, channel, burstMode, burstPhase, burstCount, gatePolarity, internalPeriod, false))
            == "SOUR" + Ch(channel) + ":BURS:STAT OFF"
  {
    var only := Clause("BURS:STAT", false, "SOUR", channel, ":BURS:STAT OFF");
    assert Concat([only]) == Concat([]) + only.text;
  }

  /** Enabling always ends with `BURS:STAT ON`, after the mode clauses. */
  lemma BurstStateLast(f: Formats, channel: int, burstMode: bool, burstPhase: real,
                       burstCount: int, gatePolarity: bool, internalPeriod: real)
    requires IsChannel(channel)
    requires -360.0 <= burstPhase <= 360.0 && burstCount >= 1 && internalPeriod > 0.0
    ensures EndsWith(Concat(ConfigureBurst(f, channel, burstMode, burstPhase, burstCount, gatePolarity, internalPeriod, true)),
                     "SOUR" + Ch(channel) + ":BURS:STAT ON")
  {
    var ps := ConfigureBurst(f, channel, burstMode, burstPhase, burstCount, gatePolarity, internalPeriod, true);
    assert ps[|ps| - 1] == Clause("BURS:STAT", false, "SOUR", channel, ":BURS:STAT ON");
    ConcatEndsWithLast(ps);
  }

  /** Gated bursts set the gate polarity and internal period and no cycle count;
      triggered bursts set the start phase and cycle count and no gate. */
  lemma BurstModeClauses(f: Formats, channel: int, burstMode: bool, burstPhase: real,
                         burstCount: int, gatePolarity: bool, internalPeriod: real)
    requires IsChannel(channel)
    requires -360.0 <= burstPhase <= 360.0 && burstCount >= 1 && internalPeriod > 0.0
    ensures var ps := ConfigureBurst(f, channel, burstMode, burstPhase, burstCount,
                                     gatePolarity, internalPeriod, true);
            (burstMode ==> HasKey(ps, "BURS:GATE:POL") && HasKey(ps, "BURS:INT:PER") && !HasKey(ps, "BURS:NCYC"))
            && (!burstMode ==> HasKey(ps, "BURS:PHAS") && HasKey(ps, "BURS:NCYC") && !HasKey(ps, "BURS:GATE:POL"))
  {
    var ps := ConfigureBurst(f, channel, burstMode, burstPhase, burstCount,
                             gatePolarity, internalPeriod, true);
    assert ps[1].key == if burstMode then "BURS:GATE:POL" else "BURS:PHAS";
    assert ps[2].key == if burstMode then "BURS:INT:PER" else "BURS:NCYC";
  }

  // ---------------------------------------------------------------------------
  // A33ConfigureFM
  // ---------------------------------------------------------------------------

  function ConfigureFm(f: Formats, channel: int, enableFrequencyModulation: bool, fmSource: int,
                       modulationWaveform: int, modulationDeviation: real,
                       modulationFrequency: real): (ps: seq<Piece>)
    requires IsChannel(channel)
    requires 0 <= fmSource <= 3 && 0 <= modulationWaveform <= 7
    requires modulationDeviation >= 0.0 && modulationFrequency > 0.0
    ensures AllAddressed(ps, "SOUR", channel)
  {
    if enableFrequencyModulation then
      [Clause("FM:STAT", false, "SOUR", channel, ":FM:STAT ON;:"),
       Clause("FM:SOUR", false, "SOUR", channel, ":FM:SOUR " + ModulationSources[fmSource] + ";:")]
      + (if ModulationSources[fmSource] == "INT" then
           [Clause("FM:INT:FUNC", false, "SOUR", channel, ":FM:INT:FUNC " + ModulationWaveforms[modulationWaveform] + ";:"),
            Clause("FM:INT:FREQ", false, "SOUR", channel, ":FM:INT:FREQ " + f.g12(modulationFrequency) + ";:")]
         else [])
      + [Clause("FM:DEV", false, "SOUR", channel, ":FM:DEV " + f.g12(modulationDeviation) + ";")]
    else
      [Clause("FM:STAT", false, "SOUR", channel, ":FM:STAT OFF;:")]
  }

  /** Disabled FM sends only `FM:STAT OFF`; the internal function and frequency are set
      only when FM is on and its source is INT (index 0). */
  lemma FmClauses(f: Formats, channel: int, enableFrequencyModulation: bool, fmSource: int,
                  modulationWaveform: int, modulationDeviation: real, modulationFrequency: real)
    requires IsChannel(channel)
    requires 0 <= fmSource <= 3 && 0 <= modulationWaveform <= 7
    requires modulationDeviation >= 0.0 && modulationFrequency > 0.0
    ensures var ps := ConfigureFm(f, channel, enableFrequencyModulation, fmSource, modulationWaveform,
                                  modulationDeviation, modulationFrequency);
            (!enableFrequencyModulation ==> Concat(ps) == "SOUR" + Ch(channel) + ":FM:STAT OFF;:")
            && (HasKey(ps, "FM:INT:FUNC") <==> enableFrequencyModulation && fmSource == 0)
            && (HasKey(ps, "FM:INT:FREQ") <==> enableFrequencyModulation && fmSource == 0)
  {
    var ps := ConfigureFm(f, channel, enableFrequencyModulation, fmSource, modulationWaveform,
                          modulationDeviation, modulationFrequency);
    if !enableFrequencyModulation {
      assert Concat(ps) == Concat([]) + ps[0].text;
    } else if fmSource == 0 {
      assert ps[2].key == "FM:INT:FUNC" && ps[3].key == "FM:INT:FREQ";
    } else {
      assert ModulationSources[fmSource] != "INT";
      assert |ps| == 3;
    }
  }

  // ---------------------------------------------------------------------------
  // A33ConfigureFSweep
  // ---------------------------------------------------------------------------

  function ConfigureFSweep(f: Formats, channel: int, enableFrequencySweep: bool, sweepSpacing: int,
                           sweepTime: real, holdTime: real, returnTime: real,
                           startFrequency: real, stopFrequency: real): (ps: seq<Piece>)
    requires IsChannel(channel)
    requires 0 <= sweepSpacing <= 1 && sweepTime > 0.0 && holdTime >= 0.0 && returnTime >= 0.0
    requires startFrequency >= 0.0 && stopFrequency >= 0.0
    ensures enableFrequencySweep ==> Keys(ps) == ["SWE:STAT", "SWE:SPAC", "SWE:TIME", "FREQ:STAR",
                                                  "FREQ:STOP", "SWE:HTIME", "SWE:RTIME"]
    ensures !enableFrequencySweep ==> ps == [Clause("SWE:STAT", true, "SWE", channel, ":STAT OFF;")]
  {
    if enableFrequencySweep then
      [Clause("SWE:STAT", true, "SWE", channel, ":STAT ON;:"),
       Clause("SWE:SPAC", false, "SWE", channel, ":SPAC " + SweepSpacings[sweepSpacing] + ";:"),
       Clause("SWE:TIME", false, "SWE", channel, ":TIME " + f.g7(sweepTime) + ";:"),
       Clause("FREQ:STAR", false, "FREQ", channel, ":STAR " + f.g12(startFrequency) + ";:"),
       Clause("FREQ:STOP", false, "FREQ", channel, ":STOP " + f.g12(stopFrequency) + ";:"),
       Clause("SWE:HTIME", false, "SWE", channel, ":HTIME " + f.g7(holdTime) + ";:"),
       Clause("SWE:RTIME", false, "SWE", channel, ":RTIME " + f.g7(returnTime) + ";")]
    else
      [Clause("SWE:STAT", true, "SWE", channel, ":STAT OFF;")]
  }

  /** `self.write(cmd.upper())`: the sweep command is sent upper-cased, so the exponent
      letters of the formatted numbers go out as capitals. */
  function FSweepCommand(f: Formats, channel: int, enableFrequencySweep: bool, sweepSpacing: int,
                         sweepTime: real, holdTime: real, returnTime: real,
                         startFrequency: real, stopFrequency: real): (cmd: string)
    requires IsChannel(channel)
    requires 0 <= sweepSpacing <= 1 && sweepTime > 0.0 && holdTime >= 0.0 && returnTime >= 0.0
    requires startFrequency >= 0.0 && stopFrequency >= 0.0
    ensures IsUpper(cmd)
    ensures |cmd| == |Concat(ConfigureFSweep(f, channel, enableFrequencySweep, sweepSpacing, sweepTime,
                                             holdTime, returnTime, startFrequency, stopFrequency))|
  {
    Upper(Concat(ConfigureFSweep(f, channel, enableFrequencySweep, sweepSpacing, sweepTime,
                                 holdTime, returnTime, startFrequency, stopFrequency)))
  }

  // ---------------------------------------------------------------------------
  // A33ConfigurePulse, A33ConfigureTrigger
  // ---------------------------------------------------------------------------

  function ConfigurePulse(f: Formats, channel: int, pulsePeriod: real, pulseWidth: real,
                          leadingEdge: real, trailingEdge: real): (ps: seq<Piece>)
    requires IsChannel(channel)
    requires pulsePeriod > 0.0 && pulseWidth > 0.0 && leadingEdge > 0.0 && trailingEdge > 0.0
    ensures Keys(ps) == ["FUNC:PULS:PER", "FUNC:PULS:WIDT", "FUNC:PULS:TRAN:LEAD", "FUNC:PULS:TRAN:TRA"]
    ensures AllAddressed(ps, "SOUR", channel)
  {
    [Clause("FUNC:PULS:PER", true, "SOUR", channel, ":FUNC:PULS:PER " + f.g12(pulsePeriod) + ";:"),
     Clause("FUNC:PULS:WIDT", false, "SOUR", channel, ":FUNC:PULS:WIDT " + f.g12(pulseWidth) + ";:"),
     Clause("FUNC:PULS:TRAN:LEAD", false, "SOUR", channel, ":FUNC:PULS:TRAN:LEAD " + f.g12(leadingEdge) + ";:"),
     Clause("FUNC:PULS:TRAN:TRA", false, "SOUR", channel, ":FUNC:PULS:TRAN:TRA " + f.g12(trailingEdge) + ";")]
  }

  function ConfigureTrigger(f: Formats, channel: int, triggerSource: int, triggerSlope: int,
                            delay: real, intPeriod: real, triggerLevel: real): (ps: seq<Piece>)
    requires IsChannel(channel)
    requires 0 <= triggerSource <= 3 && 0 <= triggerSlope <= 1 && delay >= 0.0 && intPeriod > 0.0
    ensures Keys(ps) == ["SOUR", "SLOP", "DEL", "TIM", "LEV"]
    ensures AllAddressed(ps, "TRIG", channel)
  {
    [Clause("SOUR", true, "TRIG", channel, ": SOUR " + TriggerSources[triggerSource] + ";:"),
     Clause("SLOP", false, "TRIG", channel, ":SLOP " + TriggerSlopes[triggerSlope] + ";:"),
     Clause("DEL", false, "TRIG", channel, ":DEL " + f.g12(delay) + ";:"),
     Clause("TIM", false, "TRIG", channel, ":TIM " + f.g12(intPeriod) + ";:"),
     Clause("LEV", false, "TRIG", channel, ":LEV " + f.g12(triggerLevel) + ";")]
  }

  // ---------------------------------------------------------------------------
  // A33ConfigureWFM
  // ---------------------------------------------------------------------------

  const Noise := 4
  const Dc := 5
  const Prbs := 6

  /** The rate clause a standard waveform takes: noise bandwidth, PRBS bit rate, or frequency. */
  function RateKey(waveform: int): string {
    if waveform == Noise then "FUNC NOISE:BAND" else if waveform == Prbs then "FUNC:PRBS:BRAT" else "FREQ"
  }

  predicate IsRateKey(k: string) {
    k == "FUNC NOISE:BAND" || k == "FUNC:PRBS:BRAT" || k == "FREQ"
  }

  function ConfigureWfm(f: Formats, channel: int, waveform: int, amplitude: real, dcOffset: real,
                        frequencyBwBitrate: real, phase: real): (ps: seq<Piece>)
    requires IsChannel(channel)
    requires 0 <= waveform <= 7 && amplitude >= 0.0 && frequencyBwBitrate > 0.0
    requires -360.0 <= phase <= 360.0
    ensures AllAddressed(ps, "SOUR", channel)
  {
    var w := StandardWaveforms[waveform];
    [Clause("FUNC", true, "SOUR", channel, ":FUNC " + w + ";:")]
    + (if w != "DC" then [Clause("VOLT", false, "SOUR", channel, ":VOLT " + f.g12(amplitude) + ";:")] else [])
    + [Clause("VOLT:OFFS", false, "SOUR", channel, ":VOLT:OFFS " + f.g12(dcOffset) + ";:")]
    + (if w == "NOIS" then [Clause("FUNC NOISE:BAND", false, "SOUR", channel, ":FUNC NOISE:BAND " + f.g12(frequencyBwBitrate) + ";:")]
       else if w == "PRBS" then [Clause("FUNC:PRBS:BRAT", false, "SOUR", channel, ":FUNC:PRBS:BRAT " + f.g12(frequencyBwBitrate) + ";:")]
       else [Clause("FREQ", false, "SOUR", channel, ":FREQ " + f.g12(frequencyBwBitrate) + ";:")])
    + (if w != "NOIS" && w != "DC" then [Clause("PHASE", false, "SOUR", channel, ":PHASE " + f.g12(phase) + ";")] else [])
  }

  /** VOLT is left out exactly for DC, PHASE exactly for NOIS and DC, and exactly one rate
      clause is sent: the one the waveform selects. */
  lemma WfmClauses(f: Formats, channel: int, waveform: int, amplitude: real, dcOffset: real,
                   frequencyBwBitrate: real, phase: real)
    requires IsChannel(channel)
    requires 0 <= waveform <= 7 && amplitude >= 0.0 && frequencyBwBitrate > 0.0
    requires -360.0 <= phase <= 360.0
    ensures var ps := ConfigureWfm(f, channel, waveform, amplitude, dcOffset, frequencyBwBitrate, phase);
            (HasKey(ps, "VOLT") <==> waveform != Dc)
            && (HasKey(ps, "PHASE") <==> waveform != Noise && waveform != Dc)
            && (exists i :: 0 <= i < |ps| && ps[i].key == RateKey(waveform)
                  && forall j :: 0 <= j < |ps| && IsRateKey(ps[j].key) ==> j == i)
  {
    var ps := ConfigureWfm(f, channel, waveform, amplitude, dcOffset, frequencyBwBitrate, phase);
    var w := StandardWaveforms[waveform];
    assert w == "DC" <==> waveform == Dc;
    assert w == "NOIS" <==> waveform == Noise;
    assert w == "PRBS" <==> waveform == Prbs;
    var hasVolt := if waveform != Dc then 1 else 0;
    var r := 2 + hasVolt;
    assert ps[0].key == "FUNC" && ps[1 + hasVolt].key == "VOLT:OFFS";
    assert ps[r].key == RateKey(waveform);
    if waveform != Dc {
      assert ps[1].key == "VOLT";
    } else {
      forall i | 0 <= i < |ps| ensures ps[i].key != "VOLT" {
        assert i == 0 || i == 1 || i == 2;
      }
    }
    if waveform != Noise && waveform != Dc {
      assert ps[r + 1].key == "PHASE";
    } else {
      assert |ps| == r + 1;
    }
    forall j | 0 <= j < |ps| && IsRateKey(ps[j].key) ensures j == r {
    }
  }

  // ---------------------------------------------------------------------------
  // A33OutputOnOff, A33ConfigurePRBS, A33ConfigureRamp, A33ConfigureSquare
  // ---------------------------------------------------------------------------

  function OutputOnOff(f: Formats, channel: int, enableOutput: bool, outputMode: bool,
                       polarity: bool, impedance: real): (ps: seq<Piece>)
    requires IsChannel(channel) && impedance > 0.0
    ensures Keys(ps) == ["LOAD", "POL", "MODE", "STATE"]
    ensures ps[3].text == "OUTP" + Ch(channel) + " " + OnOff(enableOutput) + ";"
    ensures AllAddressed(ps, "OUTP", channel)
  {
    [Clause("LOAD", true, "OUTP", channel, ":LOAD " + f.g12(impedance) + ";:"),
     Clause("POL", false, "OUTP", channel, ":POL " + (if polarity then "INV" else "NORM") + ";:"),
     Clause("MODE", false, "OUTP", channel, ":MODE " + (if outputMode then "GATED" else "NORM") + ";:"),
     Clause("STATE", false, "OUTP", channel, " " + OnOff(enableOutput) + ";")]
  }

  function ConfigurePrbs(f: Formats, channel: int, sequenceType: int, edge: real): (ps: seq<Piece>)
    requires IsChannel(channel) && sequenceType >= 0 && edge > 0.0
    ensures Keys(ps) == ["FUNC:PRBS:DATA", "FUNC:PRBS:TRAN"]
    ensures ps[0].text == ":SOUR" + Ch(channel) + ":FUNC:PRBS:DATA PN" + NatToString(sequenceType) + ";:"
    ensures AllAddressed(ps, "SOUR", channel)
  {
    assert IntToString(sequenceType) == NatToString(sequenceType);
    [Clause("FUNC:PRBS:DATA", true, "SOUR", channel, ":FUNC:PRBS:DATA PN" + IntToString(sequenceType) + ";:"),
     Clause("FUNC:PRBS:TRAN", false, "SOUR", channel, ":FUNC:PRBS:TRAN " + f.g12(edge) + ";")]
  }

  function ConfigureRamp(f: Formats, channel: int, rampSymmetry: real): (ps: seq<Piece>)
    requires IsChannel(channel) && 0.0 <= rampSymmetry <= 100.0
    ensures Keys(ps) == ["FUNC:RAMP:SYMM"]
    ensures AllAddressed(ps, "SOUR", channel)
  {
    [Clause("FUNC:RAMP:SYMM", true, "SOUR", channel, ":FUNC:RAMP:SYMM " + f.g12(rampSymmetry) + ";")]
  }

  /** The duty cycle is rendered with plain `str(float)`, not `#.12g`. */
  function ConfigureSquare(f: Formats, channel: int, dutyCycle: real): (ps: seq<Piece>)
    requires IsChannel(channel) && 0.0 <= dutyCycle <= 100.0
    ensures Keys(ps) == ["FUNC:SQU:DCYC"]
    ensures AllAddressed(ps, "SOUR", channel)
  {
    [Clause("FUNC:SQU:DCYC", true, "SOUR", channel, ":FUNC:SQU:DCYC " + f.floatStr(dutyCycle) + ";")]
  }
}
