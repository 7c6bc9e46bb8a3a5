/** The command builders of the Siglent SDG6022X driver (`SDG60*` functions).

    Each builder reads its arguments, as decoded from the request, appends `KEY,value`
    parts to a list, joins the list with commas and writes the result once.  The
    builders here return the parts in the order they are appended, or the exception
    Python raises while building them (a missing key, a number format applied to a
    string, an unhashable dictionary key); nothing is written in that case. */
module Sdg6022x {
  import opened Python
  import opened Scpi

  /** `f"{key},{value}"` */
  function Part(key: string, value: string): (p: Piece)
    ensures p.key == key
  {
    Piece(key, key + "," + value)
  }

  predicate Numeric(v: Value) { AsNumber(v).Some? }

  /** `f"{key},{v:<spec>}"`: fails exactly when `v` is not a number. */
  function FormatPart(key: string, spec: real -> string, v: Value): (r: Result<Piece>)
    ensures r.Ok? <==> Numeric(v)
    ensures r.Ok? ==> r.value == Part(key, spec(AsNumber(v).value))
  {
    var text :- FormatNumber(spec, v);
    Ok(Part(key, text))
  }

  function OnOff(b: bool): string { if b then "ON" else "OFF" }

  /** The `C{channel}:BSWV WVTP,{waveform}` head that selects the basic waveform. */
  function WaveHead(f: Formats, channel: Value, waveform: string): (p: Piece)
    ensures p.key == "WVTP"
  {
    Piece("WVTP", "C" + Str(f, channel) + ":BSWV WVTP," + waveform)
  }

  // ---------------------------------------------------------------------------
  // SDG60ConfBurst2
  // ---------------------------------------------------------------------------

  /** `Triggered_Gated == 1` selects gated bursts (GATE), anything else triggered (NCYC). */
  predicate IsGated(kw: Kwargs) {
    EqualsInt(Get(kw, "Triggered_Gated", VInt(0)), 1)
  }

  predicate IsInfinite(kw: Kwargs) {
    EqualsInt(Get(kw, "Burst_Cycle", VInt(0)), 1)
  }

  /** `TRSR_MAP.get(src, 'INT')` followed by the lockout that turns a manual trigger into
      an external one in gated mode.  Looking up a list or a dict raises TypeError. */
  function TriggerSource(src: Value, gated: bool): (r: Result<string>)
    ensures r.Ok? <==> Hashable(src)
    ensures r.Ok? ==> r.value == "INT" || r.value == "EXT" || r.value == "MAN"
    ensures r.Ok? && gated ==> r.value != "MAN"
    ensures r.Ok? ==> (r.value == "INT" <==> !EqualsInt(src, 1) && !EqualsInt(src, 2))
    ensures r.Ok? ==> (r.value == "MAN" <==> !gated && EqualsInt(src, 2))
  {
    if !Hashable(src) then Err(TypeError("unhashable type"))
    else
      var mapped := if EqualsInt(src, 1) then "EXT" else if EqualsInt(src, 2) then "MAN" else "INT";
      Ok(if gated && mapped == "MAN" then "EXT" else mapped)
  }

  /** PLRT (gate polarity) in gated mode; EDGE (trigger edge) in triggered mode with an
      external source; nothing otherwise. */
  function PolarityParts(kw: Kwargs, gated: bool, trsr: string): (ps: seq<Piece>)
    ensures HasKey(ps, "PLRT") <==> gated
    ensures HasKey(ps, "EDGE") <==> !gated && trsr == "EXT"
    ensures !HasKey(ps, "TIME") && !HasKey(ps, "PRD")
  {
    var negative := EqualsInt(Get(kw, "Trg_Gate_Polarity", VInt(0)), 1);
    var ps := if gated then [Part("PLRT", if negative then "NEG" else "POS")]
              else if trsr == "EXT" then [Part("EDGE", if negative then "FALL" else "RISE")]
              else [];
    HasKeySmall(ps, "PLRT"); HasKeySmall(ps, "EDGE"); HasKeySmall(ps, "TIME"); HasKeySmall(ps, "PRD");
    ps
  }

  /** The TIME part in triggered mode: `INF` for an infinite burst, else the cycle count. */
  function TimePart(f: Formats, kw: Kwargs): Piece {
    Part("TIME", if IsInfinite(kw) then "INF" else Str(f, Get(kw, "Number_of_Cycles", VInt(1))))
  }

  /** TIME (the cycle count) in triggered mode only. */
  function TimeParts(f: Formats, kw: Kwargs, gated: bool): (ps: seq<Piece>)
    ensures HasKey(ps, "TIME") <==> !gated
    ensures !gated ==> ps == [TimePart(f, kw)]
    ensures !HasKey(ps, "PLRT") && !HasKey(ps, "EDGE") && !HasKey(ps, "PRD")
  {
    var ps := if gated then [] else [TimePart(f, kw)];
    HasKeySmall(ps, "PLRT"); HasKeySmall(ps, "EDGE"); HasKeySmall(ps, "TIME"); HasKeySmall(ps, "PRD");
    ps
  }

  /** PRD (the burst period) for an internal source, except gated infinite bursts. */
  function PeriodParts(f: Formats, kw: Kwargs, gated: bool, trsr: string): (r: Result<seq<Piece>>)
    ensures var sent := trsr == "INT" && !(gated && IsInfinite(kw));
            && (r.Ok? <==> (sent ==> Numeric(Get(kw, "Burst_Period", VFloat(0.0)))))
            && (r.Ok? ==> (HasKey(r.value, "PRD") <==> sent))
            && (r.Ok? ==> !HasKey(r.value, "PLRT") && !HasKey(r.value, "EDGE") && !HasKey(r.value, "TIME"))
  {
    if trsr == "INT" && !(gated && IsInfinite(kw)) then
      var p :- FormatPart("PRD", f.e9, Get(kw, "Burst_Period", VFloat(0.0)));
      HasKeySmall([p], "PLRT"); HasKeySmall([p], "EDGE"); HasKeySmall([p], "TIME"); HasKeySmall([p], "PRD");
      Ok([p])
    else
      HasKeySmall([], "PRD");
      Ok([])
  }

  /** The parts of an enabled burst, in the order the source appends them. */
  function Assemble(stps: Piece, gated: bool, trsr: string, pol: seq<Piece>, delay: Piece,
                    time: seq<Piece>, period: seq<Piece>): seq<Piece> {
    [Part("STATE", "ON"), stps, Part("GATE_NCYC", if gated then "GATE" else "NCYC"), Part("TRSR", trsr)]
    + pol + [delay] + time + period + [Part("TRMD", "OFF")]
  }

  function BurstParts(f: Formats, kw: Kwargs): Result<seq<Piece>> {
    if !Truthy(Get(kw, "Enable_Burst", VBool(false))) then Ok([Part("STATE", "OFF")])
    else
      var stps :- FormatPart("STPS", f.g15, Get(kw, "Start_Phase", VFloat(0.0)));
      var gated := IsGated(kw);
      var trsr :- TriggerSource(Get(kw, "TRG_Gate_Source", VInt(0)), gated);
      var delay :- FormatPart("DLAY", f.e15, Get(kw, "Burst_Delay", VFloat(0.0)));
      var period :- PeriodParts(f, kw, gated, trsr);
      Ok(Assemble(stps, gated, trsr, PolarityParts(kw, gated, trsr), delay, TimeParts(f, kw, gated), period))
  }

  /** The command `SDG60ConfBurst2` writes. */
  function Burst2(f: Formats, kw: Kwargs): Result<string> {
    var parts :- BurstParts(f, kw);
    Ok("C" + Str(f, Get(kw, "Channel", VInt(1))) + ":BTWV " + JoinComma(parts))
  }

  /** A disabled burst writes exactly `C{ch}:BTWV STATE,OFF`, whatever else is given. */
  lemma BurstDisabled(f: Formats, kw: Kwargs)
    requires !Truthy(Get(kw, "Enable_Burst", VBool(false)))
    ensures Burst2(f, kw) == Ok("C" + Str(f, Get(kw, "Channel", VInt(1))) + ":BTWV STATE,OFF")
  {
    assert BurstParts(f, kw) == Ok([Part("STATE", "OFF")]);
    assert JoinComma([Part("STATE", "OFF")]) == "STATE,OFF";
    var ch := Str(f, Get(kw, "Channel", VInt(1)));
    assert "C" + ch + ":BTWV " + "STATE,OFF" == "C" + ch + ":BTWV STATE,OFF";
  }

  /** An enabled burst fails exactly when a value it formats is not a number or the
      trigger source cannot be looked up. */
  lemma BurstErrors(f: Formats, kw: Kwargs)
    requires Truthy(Get(kw, "Enable_Burst", VBool(false)))
    ensures var src := Get(kw, "TRG_Gate_Source", VInt(0));
            var internal := !EqualsInt(src, 1) && !EqualsInt(src, 2);
            BurstParts(f, kw).Ok? <==>
              Numeric(Get(kw, "Start_Phase", VFloat(0.0))) && Hashable(src)
              && Numeric(Get(kw, "Burst_Delay", VFloat(0.0)))
              && (internal && !(IsGated(kw) && IsInfinite(kw)) ==> Numeric(Get(kw, "Burst_Period", VFloat(0.0))))
  {
    var src := Get(kw, "TRG_Gate_Source", VInt(0));
    var sp := FormatPart("STPS", f.g15, Get(kw, "Start_Phase", VFloat(0.0)));
    var t := TriggerSource(src, IsGated(kw));
    var d := FormatPart("DLAY", f.e15, Get(kw, "Burst_Delay", VFloat(0.0)));
    if sp.Ok? && t.Ok? && d.Ok? {
      var p := PeriodParts(f, kw, IsGated(kw), t.value);
      assert BurstParts(f, kw).Ok? <==> p.Ok?;
    }
  }

  /** The optional keys of an enabled burst come from its three optional segments. */
  lemma AssembleKeys(stps: Piece, gated: bool, trsr: string, pol: seq<Piece>, delay: Piece,
                     time: seq<Piece>, period: seq<Piece>, k: string)
    requires stps.key == "STPS" && delay.key == "DLAY"
    requires k == "TIME" || k == "PRD" || k == "PLRT" || k == "EDGE"
    ensures HasKey(Assemble(stps, gated, trsr, pol, delay, time, period), k)
            <==> HasKey(pol, k) || HasKey(time, k) || HasKey(period, k)
  {
    var head := [Part("STATE", "ON"), stps, Part("GATE_NCYC", if gated then "GATE" else "NCYC"), Part("TRSR", trsr)];
    var tail := [Part("TRMD", "OFF")];
    assert forall i :: 0 <= i < 4 ==> head[i].key in ["STATE", "STPS", "GATE_NCYC", "TRSR"];
    HasKeyAppend(head, pol, k);
    HasKeyAppend(head + pol, [delay], k);
    HasKeyAppend(head + pol + [delay], time, k);
    HasKeyAppend(head + pol + [delay] + time, period, k);
    HasKeyAppend(head + pol + [delay] + time + period, tail, k);
  }

  /** The segments an enabled burst is assembled from. */
  lemma BurstSegments(f: Formats, kw: Kwargs) returns (stps: Piece, delay: Piece, period: seq<Piece>)
    requires Truthy(Get(kw, "Enable_Burst", VBool(false)))
    requires BurstParts(f, kw).Ok?
    ensures stps.key == "STPS" && delay.key == "DLAY"
    ensures var gated := IsGated(kw);
            var trsr := TriggerSource(Get(kw, "TRG_Gate_Source", VInt(0)), gated).value;
            && PeriodParts(f, kw, gated, trsr) == Ok(period)
            && BurstParts(f, kw).value
               == Assemble(stps, gated, trsr, PolarityParts(kw, gated, trsr), delay, TimeParts(f, kw, gated), period)
  {
    stps := FormatPart("STPS", f.g15, Get(kw, "Start_Phase", VFloat(0.0))).value;
    delay := FormatPart("DLAY", f.e15, Get(kw, "Burst_Delay", VFloat(0.0))).value;
    var gated := IsGated(kw);
    period := PeriodParts(f, kw, gated, TriggerSource(Get(kw, "TRG_Gate_Source", VInt(0)), gated).value).value;
  }

  /** Which parts an enabled burst sends: TIME only when triggered, PRD only for an
      internal source and not a gated infinite burst, PLRT only when gated, EDGE only
      when triggered from the external source. */
  lemma {:induction false} BurstClauses(f: Formats, kw: Kwargs)
    requires Truthy(Get(kw, "Enable_Burst", VBool(false)))
    requires BurstParts(f, kw).Ok?
    ensures var ps := BurstParts(f, kw).value;
            var gated := IsGated(kw);
            var src := Get(kw, "TRG_Gate_Source", VInt(0));
            var internal := !EqualsInt(src, 1) && !EqualsInt(src, 2);
            && (HasKey(ps, "TIME") <==> !gated)
            && (HasKey(ps, "PRD") <==> internal && !(gated && IsInfinite(kw)))
            && (HasKey(ps, "PLRT") <==> gated)
            && (HasKey(ps, "EDGE") <==> !gated && EqualsInt(src, 1))
  {
    var gated := IsGated(kw);
    var trsr := TriggerSource(Get(kw, "TRG_Gate_Source", VInt(0)), gated).value;
    var stps, delay, period := BurstSegments(f, kw);
    var pol := PolarityParts(kw, gated, trsr);
    var time := TimeParts(f, kw, gated);
    AssembleKeys(stps, gated, trsr, pol, delay, time, period, "TIME");
    AssembleKeys(stps, gated, trsr, pol, delay, time, period, "PRD");
    AssembleKeys(stps, gated, trsr, pol, delay, time, period, "PLRT");
    AssembleKeys(stps, gated, trsr, pol, delay, time, period, "EDGE");
  }

  /** An enabled burst starts with `STATE,ON` and ends with `TRMD,OFF`; when triggered it
      sends `TIME,INF` for an infinite burst and the cycle count otherwise; a gated burst
      asked for the manual source is sent the external one. */
  lemma BurstFrame(f: Formats, kw: Kwargs)
    requires Truthy(Get(kw, "Enable_Burst", VBool(false)))
    requires BurstParts(f, kw).Ok?
    ensures var ps := BurstParts(f, kw).value;
            var gated := IsGated(kw);
            var src := Get(kw, "TRG_Gate_Source", VInt(0));
            && |ps| >= 6 && ps[0] == Part("STATE", "ON") && ps[|ps| - 1] == Part("TRMD", "OFF")
            && (!gated ==> TimePart(f, kw) in ps)
            && (gated && EqualsInt(src, 2) ==> ps[3] == Part("TRSR", "EXT"))
  {
    var ps := BurstParts(f, kw).value;
    var gated := IsGated(kw);
    var trsr := TriggerSource(Get(kw, "TRG_Gate_Source", VInt(0)), gated).value;
    var stps, delay, period := BurstSegments(f, kw);
    var pol := PolarityParts(kw, gated, trsr);
    if !gated {
      assert ps[5 + |pol|] == TimePart(f, kw);
    }
  }

  // ---------------------------------------------------------------------------
  // SDG60ConfPRBS
  // ---------------------------------------------------------------------------

  /** The parts of `SDG60ConfPRBS`: the PRBS head, then BITRATE or PERI as
      `bit_rate_period` selects, AMP, OFST, LENGTH, DIFFSTATE and EDGE, in that order.
      It fails exactly when one of the values it formats as a number is not one. */
  function ConfPrbs(f: Formats, channel: Value, bitRatePeriod: Value, bitRate: Value, period: Value,
                    amp: Value, offset: Value, differentialMode: Value, length: Value,
                    edgeTime: Value): (r: Result<seq<Piece>>)
    ensures r.Ok? <==> Numeric(if Truthy(bitRatePeriod) then bitRate else period)
                       && Numeric(amp) && Numeric(offset) && Numeric(edgeTime)
    ensures r.Ok? ==> Keys(r.value) == ["WVTP", if Truthy(bitRatePeriod) then "BITRATE" else "PERI",
                                        "AMP", "OFST", "LENGTH", "DIFFSTATE", "EDGE"]
    ensures r.Ok? ==> r.value[0].text == "C" + Str(f, channel) + ":BSWV WVTP,PRBS"
                      && r.value[4].text == "LENGTH," + Str(f, length)
                      && r.value[5].text == "DIFFSTATE," + OnOff(Truthy(differentialMode))
  {
    var rate :- if Truthy(bitRatePeriod) then FormatPart("BITRATE", f.g12, bitRate)
                else FormatPart("PERI", f.g12, period);
    var a :- FormatPart("AMP", f.g12, amp);
    var o :- FormatPart("OFST", f.g12, offset);
    var e :- FormatPart("EDGE", f.g12, edgeTime);
    Ok([WaveHead(f, channel, "PRBS"), rate, a, o, Part("LENGTH", Str(f, length)),
        Part("DIFFSTATE", OnOff(Truthy(differentialMode))), e])
  }

  /** Exactly one of BITRATE and PERI is sent. */
  lemma PrbsRateExclusive(f: Formats, channel: Value, bitRatePeriod: Value, bitRate: Value, period: Value,
                          amp: Value, offset: Value, differentialMode: Value, length: Value, edgeTime: Value)
    requires ConfPrbs(f, channel, bitRatePeriod, bitRate, period, amp, offset, differentialMode, length, edgeTime).Ok?
    ensures var ps := ConfPrbs(f, channel, bitRatePeriod, bitRate, period, amp, offset, differentialMode, length, edgeTime).value;
            (HasKey(ps, "BITRATE") <==> Truthy(bitRatePeriod)) && (HasKey(ps, "PERI") <==> !Truthy(bitRatePeriod))
  {
    var ps := ConfPrbs(f, channel, bitRatePeriod, bitRate, period, amp, offset, differentialMode, length, edgeTime).value;
    var ks := Keys(ps);
    assert ps[1].key == ks[1];
    forall i | 0 <= i < |ps| && i != 1 ensures ps[i].key != "BITRATE" && ps[i].key != "PERI" {
      assert ps[i].key == ks[i];
    }
  }

  // ---------------------------------------------------------------------------
  // SDG60ConfSTDWFM
  // ---------------------------------------------------------------------------

  /** `param_map`: request key and SCPI key of each optional parameter, in insertion order. */
  const ParamMap: seq<(string, string)> :=
    [("amp", "AMP"), ("offset", "OFST"), ("phase", "PHSE"), ("duty_cycle", "DUTY"),
     ("ramp_symmetry", "SYM"), ("pulse_width", "WIDTH"), ("edge_time", "EDGE")]

  /** The parts the loop over `pm` appends: one per entry whose request key is present,
      failing at the first present value that is not a number. */
  function OptionalParts(f: Formats, kw: Kwargs, pm: seq<(string, string)>): Result<seq<Piece>> {
    if pm == [] then Ok([])
    else
      var init :- OptionalParts(f, kw, pm[..|pm| - 1]);
      var last := pm[|pm| - 1];
      if last.0 in kw then
        var p :- FormatPart(last.1, f.g12, kw[last.0]);
        Ok(init + [p])
      else Ok(init)
  }

  /** The positions in `pm` of the entries whose request key is present, in order. */
  function Present(kw: Kwargs, pm: seq<(string, string)>): seq<nat> {
    if pm == [] then []
    else Present(kw, pm[..|pm| - 1]) + (if pm[|pm| - 1].0 in kw then [|pm| - 1] else [])
  }

  /** The loop fails exactly when a present value is not a number. */
  lemma {:induction false} OptionalPartsOk(f: Formats, kw: Kwargs, pm: seq<(string, string)>)
    ensures OptionalParts(f, kw, pm).Ok? <==> forall j :: 0 <= j < |pm| && pm[j].0 in kw ==> Numeric(kw[pm[j].0])
  {
    if pm != [] {
      var init := pm[..|pm| - 1];
      OptionalPartsOk(f, kw, init);
      assert forall j :: 0 <= j < |init| ==> init[j] == pm[j];
    }
  }

  /** The present positions are increasing and each names an entry whose key is given. */
  lemma {:induction false} PresentInOrder(kw: Kwargs, pm: seq<(string, string)>)
    ensures forall a :: 0 <= a < |Present(kw, pm)| ==> Present(kw, pm)[a] < |pm| && pm[Present(kw, pm)[a]].0 in kw
    ensures forall a, b :: 0 <= a < b < |Present(kw, pm)| ==> Present(kw, pm)[a] < Present(kw, pm)[b]
  {
    if pm != [] {
      var n := |pm|;
      var init := pm[..n - 1];
      PresentInOrder(kw, init);
      var prev := Present(kw, init);
      var idx := Present(kw, pm);
      assert idx == prev + (if pm[n - 1].0 in kw then [n - 1] else []);
      forall a | 0 <= a < |prev| ensures idx[a] == prev[a] && prev[a] < n - 1 && pm[idx[a]].0 in kw {
        assert prev[a] < |init| && init[prev[a]].0 in kw;
        assert init[prev[a]] == pm[prev[a]];
      }
    }
  }

  /** Every entry whose key is given has its position among the present ones. */
  lemma {:induction false} PresentComplete(kw: Kwargs, pm: seq<(string, string)>)
    ensures forall j :: 0 <= j < |pm| && pm[j].0 in kw ==> j in Present(kw, pm)
  {
    if pm != [] {
      var n := |pm|;
      var init := pm[..n - 1];
      PresentComplete(kw, init);
      var prev := Present(kw, init);
      var idx := Present(kw, pm);
      assert idx == prev + (if pm[n - 1].0 in kw then [n - 1] else []);
      forall j | 0 <= j < n && pm[j].0 in kw ensures j in idx {
        if j < n - 1 {
          assert init[j] == pm[j];
          assert j in prev;
        } else {
          assert idx[|idx| - 1] == j;
        }
      }
    }
  }

  /** SCPI keys of `pm`. */
  function ScpiKeys(pm: seq<(string, string)>): (ks: seq<string>)
    ensures |ks| == |pm| && forall j :: 0 <= j < |pm| ==> ks[j] == pm[j].1
  {
    seq(|pm|, j requires 0 <= j < |pm| => pm[j].1)
  }

  /** Every part the loop appends carries a SCPI key of `pm`. */
  lemma {:induction false} OptionalPartsKeys(f: Formats, kw: Kwargs, pm: seq<(string, string)>)
    requires OptionalParts(f, kw, pm).Ok?
    ensures forall a :: 0 <= a < |OptionalParts(f, kw, pm).value| ==> OptionalParts(f, kw, pm).value[a].key in ScpiKeys(pm)
  {
    if pm != [] {
      var init := pm[..|pm| - 1];
      OptionalPartsKeys(f, kw, init);
      assert ScpiKeys(init) == ScpiKeys(pm)[..|pm| - 1];
    }
  }

  /** The parts appended are, in `pm` order, one `SCPI_KEY,value` per present entry. */
  lemma {:induction false} OptionalPartsValues(f: Formats, kw: Kwargs, pm: seq<(string, string)>)
    requires OptionalParts(f, kw, pm).Ok?
    ensures var ps := OptionalParts(f, kw, pm).value;
            var idx := Present(kw, pm);
            |ps| == |idx| && forall a :: 0 <= a < |idx| ==>
              idx[a] < |pm| && pm[idx[a]].0 in kw && Numeric(kw[pm[idx[a]].0])
              && ps[a] == Part(pm[idx[a]].1, f.g12(AsNumber(kw[pm[idx[a]].0]).value))
  {
    if pm != [] {
      var init := pm[..|pm| - 1];
      OptionalPartsValues(f, kw, init);
      assert forall j :: 0 <= j < |init| ==> init[j] == pm[j];
    }
  }

  /** FRQ in frequency mode (the default), PERI otherwise, each only when its key is given. */
  function StdRatePart(f: Formats, kw: Kwargs): Result<seq<Piece>> {
    if Truthy(Get(kw, "is_freq_mode", VBool(true))) then OptionalPart(f, kw, "freq", "FRQ")
    else OptionalPart(f, kw, "period", "PERI")
  }

  /** The parts of `SDG60ConfSTDWFM`: the waveform head (SINE by default), FRQ or PERI as
      `is_freq_mode` selects and only when that key is given, then the optional parts. */
  function StdWfm(f: Formats, kw: Kwargs): Result<seq<Piece>> {
    var head := WaveHead(f, Get(kw, "channel", VInt(1)), Str(f, Get(kw, "waveform_type", VStr("SINE"))));
    var rate :- StdRatePart(f, kw);
    var optional :- OptionalParts(f, kw, ParamMap);
    Ok([head] + rate + optional)
  }

  /** Once a prefix of the loop has failed, the whole loop fails with the same error. */
  lemma {:induction false} OptionalPartsFailureSticks(f: Formats, kw: Kwargs, pm: seq<(string, string)>, i: nat)
    requires i <= |pm| && OptionalParts(f, kw, pm[..i]).Err?
    ensures OptionalParts(f, kw, pm) == OptionalParts(f, kw, pm[..i])
    decreases |pm| - i
  {
    if i < |pm| {
      assert pm[..i + 1][..i] == pm[..i];
      OptionalPartsFailureSticks(f, kw, pm, i + 1);
    } else {
      assert pm[..i] == pm;
    }
  }

  /** `SDG60ConfSTDWFM`: the head and rate parts, then the loop over `param_map`. */
  method ConfStdWfm(f: Formats, kw: Kwargs) returns (r: Result<seq<Piece>>)
    ensures r == StdWfm(f, kw)
  {
    var channel := Get(kw, "channel", VInt(1));
    var wvType := Get(kw, "waveform_type", VStr("SINE"));
    var cmdParts := [WaveHead(f, channel, Str(f, wvType))];
    var isFreqMode := Truthy(Get(kw, "is_freq_mode", VBool(true)));
    if isFreqMode {
      if "freq" in kw {
        var p := FormatPart("FRQ", f.g12, kw["freq"]);
        if p.Err? {
          return Err(p.error);
        }
        cmdParts := cmdParts + [p.value];
      }
    } else {
      if "period" in kw {
        var p := FormatPart("PERI", f.g12, kw["period"]);
        if p.Err? {
          return Err(p.error);
        }
        cmdParts := cmdParts + [p.value];
      }
    }
    assert cmdParts == [WaveHead(f, channel, Str(f, wvType))] + StdRatePart(f, kw).value;
    r := AppendPresent(f, kw, ParamMap, cmdParts);
  }

  /** `for json_key, scpi_key in pm: if json_key in kwargs: cmd_parts.append(...)`,
      continuing `cmdParts`. */
  method AppendPresent(f: Formats, kw: Kwargs, pm: seq<(string, string)>, cmdParts: seq<Piece>)
    returns (r: Result<seq<Piece>>)
    ensures OptionalParts(f, kw, pm).Ok? ==> r == Ok(cmdParts + OptionalParts(f, kw, pm).value)
    ensures OptionalParts(f, kw, pm).Err? ==> r == Err(OptionalParts(f, kw, pm).error)
  {
    var parts := cmdParts;
    assert pm[..0] == [];
    var i := 0;
    while i < |pm|
      invariant 0 <= i <= |pm|
      invariant OptionalParts(f, kw, pm[..i]).Ok?
      invariant parts == cmdParts + OptionalParts(f, kw, pm[..i]).value
    {
      var entry := pm[i];
      assert pm[..i + 1][..i] == pm[..i];
      assert pm[..i + 1][i] == entry;
      if entry.0 in kw {
        var p := FormatPart(entry.1, f.g12, kw[entry.0]);
        if p.Err? {
          OptionalPartsFailureSticks(f, kw, pm, i + 1);
          return Err(p.error);
        }
        parts := parts + [p.value];
      }
      i := i + 1;
    }
    assert pm[..i] == pm;
    r := Ok(parts);
  }

  /** FRQ is sent only in frequency mode and only when `freq` is given, PERI only in
      period mode and only when `period` is given; never both. */
  lemma StdWfmRate(f: Formats, kw: Kwargs)
    requires StdWfm(f, kw).Ok?
    ensures var ps := StdWfm(f, kw).value;
            var freqMode := Truthy(Get(kw, "is_freq_mode", VBool(true)));
            && ps[0].key == "WVTP"
            && (|ps| > 1 && ps[1].key == "FRQ" <==> freqMode && "freq" in kw)
            && (|ps| > 1 && ps[1].key == "PERI" <==> !freqMode && "period" in kw)
  {
    var opt := OptionalParts(f, kw, ParamMap).value;
    OptionalPartsKeys(f, kw, ParamMap);
    assert ScpiKeys(ParamMap) == ["AMP", "OFST", "PHSE", "DUTY", "SYM", "WIDTH", "EDGE"];
  }

  // ---------------------------------------------------------------------------
  // SDG60ConfPulse1
  // ---------------------------------------------------------------------------

  /** `kwargs[key]` formatted with `#.12g` under the SCPI key given. */
  function ItemPart(f: Formats, kw: Kwargs, key: string, scpiKey: string): (r: Result<Piece>)
    ensures r.Ok? <==> key in kw && Numeric(kw[key])
    ensures r.Ok? ==> r.value.key == scpiKey
    ensures key !in kw ==> r == Err(KeyError(VStr(key)))
  {
    var v :- Item(kw, key);
    FormatPart(scpiKey, f.g12, v)
  }

  function OptionalPart(f: Formats, kw: Kwargs, key: string, scpiKey: string): (r: Result<seq<Piece>>)
    ensures r.Ok? ==> |r.value| <= 1 && (r.value != [] <==> key in kw) && (r.value != [] ==> r.value[0].key == scpiKey)
  {
    if key in kw then
      var p :- FormatPart(scpiKey, f.g12, kw[key]);
      Ok([p])
    else Ok([])
  }

  /** The five parts every pulse sends: head, PERI or FRQ, the two levels, WIDTH or DUTY.
      The HLEV and LLEV branches read the very key whose absence selected them, so
      they always raise KeyError. */
  function PulseCore(f: Formats, kw: Kwargs): (r: Result<seq<Piece>>)
    ensures r.Ok? ==> |r.value| == 5 && r.value[0].key == "WVTP"
                      && r.value[1].key == (if "period" in kw then "PERI" else "FRQ")
                      && r.value[2].key == "AMP" && r.value[3].key == "OFST"
                      && r.value[4].key == (if "pulse_width" in kw then "WIDTH" else "DUTY")
  {
    var head := WaveHead(f, Get(kw, "channel", VInt(1)), "PULSE");
    var rate :- if "period" in kw then ItemPart(f, kw, "period", "PERI") else ItemPart(f, kw, "freq", "FRQ");
    var high :- if "amp" in kw then ItemPart(f, kw, "amp", "AMP") else ItemPart(f, kw, "amp", "HLEV");
    var low :- if "offset" in kw then ItemPart(f, kw, "offset", "OFST") else ItemPart(f, kw, "offset", "LLEV");
    var width :- if "pulse_width" in kw then ItemPart(f, kw, "pulse_width", "WIDTH")
                 else ItemPart(f, kw, "duty_cycle", "DUTY");
    Ok([head, rate, high, low, width])
  }

  /** RIS, FALL and EDGE, each only when its key is given. */
  function PulseEdges(f: Formats, kw: Kwargs): Result<seq<Piece>> {
    var rise :- OptionalPart(f, kw, "rise_time", "RIS");
    var fall :- OptionalPart(f, kw, "fall_edge", "FALL");
    var delay :- OptionalPart(f, kw, "delay_time", "EDGE");
    Ok(rise + fall + delay)
  }

  /** The parts of `SDG60ConfPulse1`. */
  function ConfPulse1(f: Formats, kw: Kwargs): Result<seq<Piece>> {
    var core :- PulseCore(f, kw);
    var edges :- PulseEdges(f, kw);
    Ok(core + edges)
  }

  /** Without `amp` or without `offset` the pulse is never configured, and once the rate
      part is well formed a missing `amp` raises KeyError for its own name. */
  lemma Pulse1Levels(f: Formats, kw: Kwargs)
    ensures "amp" !in kw || "offset" !in kw ==> ConfPulse1(f, kw).Err?
    ensures var rate := if "period" in kw then ItemPart(f, kw, "period", "PERI") else ItemPart(f, kw, "freq", "FRQ");
            (rate.Ok? && "amp" !in kw) ==> ConfPulse1(f, kw) == Err(KeyError(VStr("amp")))
  {
  }

  lemma PulseEdgesKeys(f: Formats, kw: Kwargs, k: string)
    requires PulseEdges(f, kw).Ok?
    ensures HasKey(PulseEdges(f, kw).value, k)
            <==> (k == "RIS" && "rise_time" in kw) || (k == "FALL" && "fall_edge" in kw) || (k == "EDGE" && "delay_time" in kw)
  {
    var rise := OptionalPart(f, kw, "rise_time", "RIS").value;
    var fall := OptionalPart(f, kw, "fall_edge", "FALL").value;
    var delay := OptionalPart(f, kw, "delay_time", "EDGE").value;
    HasKeyAppend(rise, fall, k);
    HasKeyAppend(rise + fall, delay, k);
    HasKeySmall(rise, k);
    HasKeySmall(fall, k);
    HasKeySmall(delay, k);
  }

  /** The five core parts carry none of the keys the edges or the level branches add. */
  lemma CoreKeys(core: seq<Piece>, edges: seq<Piece>, k: string)
    requires forall i :: 0 <= i < |core| ==> core[i].key in ["WVTP", "PERI", "FRQ", "AMP", "OFST", "WIDTH", "DUTY"]
    requires k == "HLEV" || k == "LLEV" || k == "RIS" || k == "FALL" || k == "EDGE"
    ensures HasKey(core + edges, k) <==> HasKey(edges, k)
  {
    HasKeyAppend(core, edges, k);
  }

  /** A configured pulse never sends HLEV or LLEV, and sends RIS, FALL and EDGE exactly
      when `rise_time`, `fall_edge` and `delay_time` are given. */
  lemma Pulse1Keys(f: Formats, kw: Kwargs)
    requires ConfPulse1(f, kw).Ok?
    ensures var ps := ConfPulse1(f, kw).value;
            && !HasKey(ps, "HLEV") && !HasKey(ps, "LLEV")
            && (HasKey(ps, "RIS") <==> "rise_time" in kw)
            && (HasKey(ps, "FALL") <==> "fall_edge" in kw)
            && (HasKey(ps, "EDGE") <==> "delay_time" in kw)
  {
    var core := PulseCore(f, kw).value;
    var edges := PulseEdges(f, kw).value;
    assert ConfPulse1(f, kw).value == core + edges;
    assert forall i :: 0 <= i < |core| ==> core[i].key in ["WVTP", "PERI", "FRQ", "AMP", "OFST", "WIDTH", "DUTY"];
    CoreKeys(core, edges, "HLEV");
    CoreKeys(core, edges, "LLEV");
    CoreKeys(core, edges, "RIS");
    CoreKeys(core, edges, "FALL");
    CoreKeys(core, edges, "EDGE");
    PulseEdgesKeys(f, kw, "HLEV");
    PulseEdgesKeys(f, kw, "LLEV");
    PulseEdgesKeys(f, kw, "RIS");
    PulseEdgesKeys(f, kw, "FALL");
    PulseEdgesKeys(f, kw, "EDGE");
  }

  // ---------------------------------------------------------------------------
  // SDG60LoadPolarity
  // ---------------------------------------------------------------------------

  /** `v >= bound` for a float bound: numbers compare, anything else raises TypeError. */
  function AtLeast(v: Value, bound: real): (r: Result<bool>)
    ensures r.Ok? <==> Numeric(v)
    ensures r.Ok? ==> (r.value <==> AsNumber(v).value >= bound)
  {
    match AsNumber(v)
    case Some(x) => Ok(x >= bound)
    case None => Err(TypeError("'>=' not supported"))
  }

  const HighImpedance: real := 1000000.0

  /** `PLRT,{polarity}` when given. */
  function PolarityPart(f: Formats, kw: Kwargs): seq<Piece> {
    if "polarity" in kw then [Part("PLRT", Str(f, kw["polarity"]))] else []
  }

  function OutputCommand(f: Formats, kw: Kwargs, parts: seq<Piece>): string {
    "C" + Str(f, Get(kw, "channel", VInt(1))) + ":OUTP " + JoinComma(parts)
  }

  /** `SDG60LoadPolarity` as written: the comparison reads `Impedance` with the default 50,
      but the finite-load branch reads `kwargs['Impedance']` again without one. */
  function LoadPolarityAsWritten(f: Formats, kw: Kwargs): (r: Result<string>)
    ensures "Impedance" !in kw ==> r == Err(KeyError(VStr("Impedance")))
  {
    var high :- AtLeast(Get(kw, "Impedance", VInt(50)), HighImpedance);
    var load :- if high then Ok(Piece("LOAD", "LOAD,HZ")) else ItemPart14(f, kw);
    Ok(OutputCommand(f, kw, [load] + PolarityPart(f, kw)))
  }

  function ItemPart14(f: Formats, kw: Kwargs): Result<Piece> {
    var v :- Item(kw, "Impedance");
    FormatPart("LOAD", f.g14, v)
  }

  /** `SDG60LoadPolarity` as evidently intended: the load is the impedance given, 50 ohm
      by default, and high impedance (HZ) from 1 MOhm up. */
  function LoadPolarity(f: Formats, kw: Kwargs): (r: Result<string>)
    ensures var z := Get(kw, "Impedance", VInt(50));
            && (r.Ok? <==> Numeric(z))
            && (r.Ok? ==> r.value == OutputCommand(f, kw, [
                  if AsNumber(z).value >= HighImpedance then Piece("LOAD", "LOAD,HZ")
                  else Part("LOAD", f.g14(AsNumber(z).value))] + PolarityPart(f, kw)))
  {
    var z := Get(kw, "Impedance", VInt(50));
    var high :- AtLeast(z, HighImpedance);
    var load := if high then Piece("LOAD", "LOAD,HZ") else Part("LOAD", f.g14(AsNumber(z).value));
    Ok(OutputCommand(f, kw, [load] + PolarityPart(f, kw)))
  }

  /** Without `Impedance` the written function raises KeyError('Impedance'); the intended
      one sets a 50 ohm load.  With `Impedance` given the two agree. */
  lemma LoadPolarityDefault(f: Formats, kw: Kwargs)
    ensures "Impedance" !in kw ==>
              LoadPolarityAsWritten(f, kw).Err?
              && LoadPolarity(f, kw) == Ok(OutputCommand(f, kw, [Part("LOAD", f.g14(50.0))] + PolarityPart(f, kw)))
    ensures "Impedance" in kw ==> LoadPolarityAsWritten(f, kw) == LoadPolarity(f, kw)
  {
  }

  // ---------------------------------------------------------------------------
  // SDG60ConfNoise
  // ---------------------------------------------------------------------------

  /** `BANDSTATE,ON,BANDWIDTH,{bandwidth:#.23g}` */
  function BandwidthPart(f: Formats, bandwidth: Value): (r: Result<Piece>)
    ensures r.Ok? <==> Numeric(bandwidth)
    ensures r.Ok? ==> r.value == Piece("BANDSTATE", "BANDSTATE,ON,BANDWIDTH," + f.g23(AsNumber(bandwidth).value))
  {
    var w :- FormatNumber(f.g23, bandwidth);
    Ok(Piece("BANDSTATE", "BANDSTATE,ON,BANDWIDTH," + w))
  }

  /** The parts of `SDG60ConfNoise`: STDEV and MEAN, then the band state; the bandwidth is
      formatted, and can fail, only when the band limit is on. */
  function ConfNoise(f: Formats, channel: Value, stdDev: Value, voltageMean: Value,
                     isBandstate: Value, bandwidth: Value): (r: Result<seq<Piece>>)
    ensures r.Ok? <==> Numeric(stdDev) && Numeric(voltageMean) && (Truthy(isBandstate) ==> Numeric(bandwidth))
    ensures r.Ok? ==> Keys(r.value) == ["WVTP", "STDEV", "MEAN", "BANDSTATE"]
                      && r.value[0].text == "C" + Str(f, channel) + ":BSWV WVTP,NOISE"
    ensures r.Ok? && !Truthy(isBandstate) ==> r.value[3].text == "BANDSTATE,OFF"
    ensures r.Ok? && Truthy(isBandstate) ==>
              r.value[3].text == "BANDSTATE,ON,BANDWIDTH," + f.g23(AsNumber(bandwidth).value)
  {
    var s :- FormatPart("STDEV", f.f4, stdDev);
    var m :- FormatPart("MEAN", f.f3, voltageMean);
    var band :- if Truthy(isBandstate) then BandwidthPart(f, bandwidth) else Ok(Part("BANDSTATE", "OFF"));
    Ok([WaveHead(f, channel, "NOISE"), s, m, band])
  }

  // ---------------------------------------------------------------------------
  // SDG60SelectArbitraryWFM
  // ---------------------------------------------------------------------------

  /** `BUILTIN_MAP`: built-in waveform names and their Siglent indices. */
  const BuiltinMap: map<string, int> :=
    map["SINE" := 0, "NOISE" := 1, "PULSE" := 5, "RAMP" := 8, "TRIANGLE" := 36, "SQUARE" := 47]

  /** `int(x)` for a float: truncation toward zero. */
  function Truncate(x: real): (i: int)
    ensures x >= 0.0 ==> 0 <= i && i as real <= x < i as real + 1.0
    ensures x < 0.0 ==> i <= 0 && i as real - 1.0 < x <= i as real
  {
    if x >= 0.0 then x.Floor else -((-x).Floor)
  }

  /** The index sent for `builtin_index`: a name is looked up case-insensitively, unknown
      names give 0; a number is converted with `int()`; anything else raises TypeError. */
  function BuiltinIndex(v: Value): (r: Result<int>)
    ensures v.VStr? ==> r.Ok? && (Upper(v.s) in BuiltinMap ==> r.value == BuiltinMap[Upper(v.s)])
                        && (Upper(v.s) !in BuiltinMap ==> r.value == 0)
    ensures v.VInt? ==> r == Ok(v.i)
    ensures r.Err? <==> !(v.VStr? || Numeric(v))
  {
    match v
    case VStr(s) => Ok(if Upper(s) in BuiltinMap then BuiltinMap[Upper(s)] else 0)
    case VInt(i) => Ok(i)
    case VBool(b) => Ok(if b then 1 else 0)
    case VFloat(x) => Ok(Truncate(x))
    case _ => Err(TypeError("int() argument must be a string, a number or a bool"))
  }

  lemma UpperIdempotent(s: string)
    ensures Upper(Upper(s)) == Upper(s)
  {
  }

  /** Names are matched whatever their case, and the sent index is one of the table's
      or 0. */
  lemma {:induction false} BuiltinNamesCaseInsensitive(s: string)
    ensures BuiltinIndex(VStr(s)) == BuiltinIndex(VStr(Upper(s)))
    ensures BuiltinIndex(VStr(s)).value in {0, 1, 5, 8, 36, 47}
  {
    UpperIdempotent(s);
  }

  /** The command `SDG60SelectArbitraryWFM` writes, or None when it writes nothing. */
  function SelectArbitraryWfm(f: Formats, kw: Kwargs): (r: Result<Option<string>>)
    ensures "user_arb_number" !in kw && "builtin_index" !in kw ==> r == Ok(None)
    ensures "user_arb_number" in kw ==> r.Ok? && r.value.Some?
    ensures r.Err? <==> "user_arb_number" !in kw && "builtin_index" in kw
                        && !(kw["builtin_index"].VStr? || Numeric(kw["builtin_index"]))
    ensures "user_arb_number" !in kw && "builtin_index" in kw && r.Ok? ==>
              r.value == Some("C" + Str(f, Get(kw, "channel", VInt(1))) + ":ARWV INDEX,"
                              + IntToString(BuiltinIndex(kw["builtin_index"]).value))
  {
    var ch := Str(f, Get(kw, "channel", VInt(1)));
    if "user_arb_number" in kw then Ok(Some("C" + ch + ":ARWV NAME,ARB" + Str(f, kw["user_arb_number"])))
    else if "builtin_index" in kw then
      var index :- BuiltinIndex(kw["builtin_index"]);
      Ok(Some("C" + ch + ":ARWV INDEX," + IntToString(index)))
    else Ok(None)
  }

  /** A user ARB number takes precedence: whatever `builtin_index` holds, or whether it is
      given at all, the user ARB is selected by name. */
  lemma UserArbPrecedence(f: Formats, kw: Kwargs, v: Value)
    requires "user_arb_number" in kw
    ensures SelectArbitraryWfm(f, kw) == SelectArbitraryWfm(f, kw["builtin_index" := v])
    ensures SelectArbitraryWfm(f, kw) == SelectArbitraryWfm(f, kw - {"builtin_index"})
    ensures SelectArbitraryWfm(f, kw).value.value
            == "C" + Str(f, Get(kw, "channel", VInt(1))) + ":ARWV NAME,ARB" + Str(f, kw["user_arb_number"])
  {
    assert Get(kw["builtin_index" := v], "channel", VInt(1)) == Get(kw, "channel", VInt(1));
    assert Get(kw - {"builtin_index"}, "channel", VInt(1)) == Get(kw, "channel", VInt(1));
  }
}
