/** The SDG6022X operations that talk to the instrument more than once: reading the
    channel's parameter groups (`SDG60ReadParameters`), switching both outputs and
    resetting (`SDG60Initialize`), the 10 MHz reference clock (`SDG60RefClock`) and
    the float32 arbitrary-waveform upload (`SDG6022X.upload_custom_waveform`).

    Each is a method over the scripted `Instrument`, proved against a function of the
    replies it is given; the properties of the sequence of calls are lemmas about that
    function. */
module Sdg6022xIo {
  import opened Python
  import opened Scpi
  import opened Visa

  // ---------------------------------------------------------------------------
  // SDG60ReadParameters
  // ---------------------------------------------------------------------------

  /** The parameter groups read back, in the order they are queried. */
  const Queries: seq<string> := ["BSWV", "MDWV", "SWWV", "BTWV", "SRATE"]

  /** `f"C{channel}:{q}?\n"` */
  function QueryCommand(channel: string, q: string): string {
    "C" + channel + ":" + q + "?\n"
  }

  /** The channel text: `kwargs.get('channel', 1)` formatted by the f-string. */
  function ChannelText(f: Formats, kw: Kwargs): string {
    Str(f, Get(kw, "channel", VInt(1)))
  }

  /** No leading or trailing white space: what `strip()` leaves, and "ERROR". */
  predicate Trimmed(s: string) {
    s == [] || (!IsSpace(s[0]) && !IsSpace(s[|s| - 1]))
  }

  /** One query: the calls it makes, the replies left, and the value stored for it. */
  datatype Reading = Reading(calls: seq<Call>, rest: seq<Reply>, value: string)

  /** Write the query and read the answer; an exception from either stores "ERROR" and
      is followed by a `clear()` whose own exception is swallowed. */
  function ReadOne(q: seq<Reply>, cmd: string): (r: Reading)
    ensures 2 <= |r.calls| <= 3 && r.calls[0] == Write(cmd)
    ensures Trimmed(r.value)
    ensures Next(q).Raise? || Next(Rest(q)).Raise? ==>
              r.value == "ERROR" && r.calls[|r.calls| - 1] == Clear
  {
    match Next(q)
    case Raise(_) => Reading([Write(cmd), Clear], Rest(Rest(q)), "ERROR")
    case Answer(_) =>
      match Next(Rest(q))
      case Raise(_) => Reading([Write(cmd), Read, Clear], Rest(Rest(Rest(q))), "ERROR")
      case Answer(t) => Reading([Write(cmd), Read], Rest(Rest(q)), Strip(t))
  }

  /** The sweep over the queries so far: all calls, the replies left, the results. */
  datatype Sweep = Sweep(calls: seq<Call>, rest: seq<Reply>, results: map<string, string>)

  /** The loop of `SDG60ReadParameters` over `qs`: an exception in one query never stops
      the sweep, so every query gets an entry, and each makes two or three calls. */
  function ReadAll(q: seq<Reply>, channel: string, qs: seq<string>): (s: Sweep)
    ensures 2 * |qs| <= |s.calls| <= 3 * |qs|
    decreases |qs|
  {
    if qs == [] then Sweep([], q, map[])
    else
      var s := ReadAll(q, channel, qs[..|qs| - 1]);
      var r := ReadOne(s.rest, QueryCommand(channel, qs[|qs| - 1]));
      Sweep(s.calls + r.calls, r.rest, s.results[qs[|qs| - 1] := r.value])
  }

  /** Every group queried has an entry and nothing else does, and every entry is free
      of surrounding white space. */
  lemma {:induction false} ReadAllResults(q: seq<Reply>, channel: string, qs: seq<string>)
    ensures var s := ReadAll(q, channel, qs);
            && (forall k :: k in s.results <==> k in qs)
            && (forall k :: k in s.results ==> Trimmed(s.results[k]))
    decreases |qs|
  {
    if qs != [] {
      var init := qs[..|qs| - 1];
      ReadAllResults(q, channel, init);
      assert forall k :: k in qs <==> k in init || k == qs[|qs| - 1] by {
        assert qs == init + [qs[|qs| - 1]];
      }
    }
  }

  /** The texts of the `write` calls, in order. */
  function Writes(calls: seq<Call>): seq<string> {
    if calls == [] then []
    else
      var last := calls[|calls| - 1];
      Writes(calls[..|calls| - 1]) + (if last.Write? then [last.text] else [])
  }

  lemma {:induction false} WritesAppend(a: seq<Call>, b: seq<Call>)
    ensures Writes(a + b) == Writes(a) + Writes(b)
    decreases |b|
  {
    if b == [] {
      assert a + b == a;
    } else {
      assert (a + b)[..|a + b| - 1] == a + b[..|b| - 1];
      WritesAppend(a, b[..|b| - 1]);
    }
  }

  /** The query commands for `qs`, in order. */
  function QueryCommands(channel: string, qs: seq<string>): (cs: seq<string>)
    ensures |cs| == |qs| && forall i :: 0 <= i < |qs| ==> cs[i] == QueryCommand(channel, qs[i])
  {
    if qs == [] then [] else QueryCommands(channel, qs[..|qs| - 1]) + [QueryCommand(channel, qs[|qs| - 1])]
  }

  /** One query writes its command and nothing else. */
  lemma ReadOneWrites(q: seq<Reply>, cmd: string)
    ensures Writes(ReadOne(q, cmd).calls) == [cmd]
  {
    var w := [Write(cmd)];
    assert w[..0] == [];
    assert Writes(w) == [cmd];
    assert [Write(cmd), Read][..1] == w;
    assert Writes([Write(cmd), Read]) == [cmd];
    assert [Write(cmd), Clear][..1] == w;
    assert [Write(cmd), Read, Clear][..2] == [Write(cmd), Read];
  }

  /** Whatever the replies, exactly one query command is written per parameter group,
      in the order of the list, and nothing else is written. */
  lemma {:induction false} ReadAllWrites(q: seq<Reply>, channel: string, qs: seq<string>)
    ensures Writes(ReadAll(q, channel, qs).calls) == QueryCommands(channel, qs)
    decreases |qs|
  {
    if qs != [] {
      var s := ReadAll(q, channel, qs[..|qs| - 1]);
      var cmd := QueryCommand(channel, qs[|qs| - 1]);
      ReadAllWrites(q, channel, qs[..|qs| - 1]);
      WritesAppend(s.calls, ReadOne(s.rest, cmd).calls);
      ReadOneWrites(s.rest, cmd);
    }
  }

  /** A query whose write and read are both answered stores the stripped answer. */
  lemma ReadOneAnswered(q: seq<Reply>, cmd: string)
    requires |q| >= 2 && q[0].Answer? && q[1].Answer?
    ensures ReadOne(q, cmd) == Reading([Write(cmd), Read], q[2..], Strip(q[1].text))
  {
    assert Rest(q) == q[1..] && Next(Rest(q)) == q[1] && Rest(Rest(q)) == q[2..];
  }

  /** The first `n` replies are all answers. */
  predicate Answered(q: seq<Reply>, n: nat) {
    n <= |q| && forall i :: 0 <= i < n ==> q[i].Answer?
  }

  /** When every write and read is answered, the sweep takes two replies per group. */
  lemma {:induction false} ReadAllAnsweredRest(q: seq<Reply>, channel: string, qs: seq<string>)
    requires Answered(q, 2 * |qs|)
    ensures ReadAll(q, channel, qs).rest == q[2 * |qs|..]
    decreases |qs|
  {
    if qs == [] {
      assert q[0..] == q;
    } else {
      var n := |qs| - 1;
      ReadAllAnsweredRest(q, channel, qs[..n]);
      var rest := q[2 * n..];
      assert rest[0] == q[2 * n] && rest[1] == q[2 * n + 1];
      assert rest[2..] == q[2 * |qs|..];
      ReadOneAnswered(rest, QueryCommand(channel, qs[n]));
    }
  }

  /** ... and makes no `clear()` call. */
  lemma {:induction false} ReadAllAnsweredCalls(q: seq<Reply>, channel: string, qs: seq<string>)
    requires Answered(q, 2 * |qs|)
    ensures var s := ReadAll(q, channel, qs);
            s.calls == ReadCalls(channel, qs) && s.rest == q[2 * |qs|..]
    decreases |qs|
  {
    ReadAllAnsweredRest(q, channel, qs);
    if qs != [] {
      var n := |qs| - 1;
      ReadAllAnsweredCalls(q, channel, qs[..n]);
      ReadAllAnsweredRest(q, channel, qs[..n]);
      var rest := q[2 * n..];
      var cmd := QueryCommand(channel, qs[n]);
      assert rest[0] == q[2 * n] && rest[1] == q[2 * n + 1];
      ReadOneAnswered(rest, cmd);
      var s0 := ReadAll(q, channel, qs[..n]);
      assert ReadAll(q, channel, qs).calls == s0.calls + ReadOne(s0.rest, cmd).calls;
      assert ReadCalls(channel, qs) == ReadCalls(channel, qs[..n]) + [Write(cmd), Read];
    }
  }

  /** The group queried last holds the stripped answer to its read. */
  lemma ReadAllLast(q: seq<Reply>, channel: string, qs: seq<string>)
    requires qs != [] && Answered(q, 2 * |qs|)
    ensures var s := ReadAll(q, channel, qs);
            qs[|qs| - 1] in s.results && s.results[qs[|qs| - 1]] == Strip(q[2 * |qs| - 1].text)
  {
    var n := |qs| - 1;
    ReadAllAnsweredRest(q, channel, qs[..n]);
    var rest := q[2 * n..];
    assert rest[0] == q[2 * n] && rest[1] == q[2 * n + 1];
    ReadOneAnswered(rest, QueryCommand(channel, qs[n]));
  }

  /** A later query of another group leaves an entry as it was. */
  lemma ReadAllKeeps(q: seq<Reply>, channel: string, qs: seq<string>, x: string)
    requires qs != [] && x != qs[|qs| - 1] && x in ReadAll(q, channel, qs[..|qs| - 1]).results
    ensures var s := ReadAll(q, channel, qs);
            x in s.results && s.results[x] == ReadAll(q, channel, qs[..|qs| - 1]).results[x]
  {
  }

  /** An element that does not occur again keeps that property in every longer prefix. */
  lemma LastOccurrenceInPrefix(qs: seq<string>, k: nat)
    requires k < |qs| - 1 && qs[k] !in qs[k + 1..]
    ensures qs[..|qs| - 1][k] == qs[k] && qs[k] !in qs[..|qs| - 1][k + 1..] && qs[k] != qs[|qs| - 1]
  {
    assert qs[k + 1..] == qs[..|qs| - 1][k + 1..] + [qs[|qs| - 1]];
  }

  /** Each group holds the value stored by its last query: later queries of other
      groups leave it as it was right after that query. */
  lemma {:induction false} ReadAllEntry(q: seq<Reply>, channel: string, qs: seq<string>, k: nat)
    requires k < |qs| && qs[k] !in qs[k + 1..]
    ensures var s, settled := ReadAll(q, channel, qs), ReadAll(q, channel, qs[..k + 1]);
            qs[k] in s.results && qs[k] in settled.results && s.results[qs[k]] == settled.results[qs[k]]
    decreases |qs|
  {
    var n := |qs| - 1;
    if k < n {
      var init := qs[..n];
      LastOccurrenceInPrefix(qs, k);
      assert init[..k + 1] == qs[..k + 1];
      ReadAllEntry(q, channel, init, k);
      ReadAllKeeps(q, channel, qs, qs[k]);
    } else {
      assert qs[..k + 1] == qs;
    }
  }

  /** ... and each group holds the stripped answer to its last query. */
  lemma ReadAllAnswered(q: seq<Reply>, channel: string, qs: seq<string>, k: nat)
    requires k < |qs| && Answered(q, 2 * |qs|)
    requires qs[k] !in qs[k + 1..]
    ensures var s := ReadAll(q, channel, qs);
            qs[k] in s.results && s.results[qs[k]] == Strip(q[2 * k + 1].text)
  {
    var p := qs[..k + 1];
    ReadAllEntry(q, channel, qs, k);
    assert p[|p| - 1] == qs[k];
    ReadAllLast(q, channel, p);
  }

  /** A group whose last query raised on its write or on its read holds "ERROR", and
      the sweep went on after it. */
  lemma ReadAllRaised(q: seq<Reply>, channel: string, qs: seq<string>, k: nat)
    requires k < |qs| && qs[k] !in qs[k + 1..]
    requires var before := ReadAll(q, channel, qs[..k]).rest;
             Next(before).Raise? || Next(Rest(before)).Raise?
    ensures var s := ReadAll(q, channel, qs);
            qs[k] in s.results && s.results[qs[k]] == "ERROR"
  {
    var p := qs[..k + 1];
    ReadAllEntry(q, channel, qs, k);
    assert p[..k] == qs[..k] && p[k] == qs[k];
  }

  /** The calls of a sweep in which nothing raised. */
  function ReadCalls(channel: string, qs: seq<string>): (cs: seq<Call>)
    ensures |cs| == 2 * |qs|
  {
    if qs == [] then [] else ReadCalls(channel, qs[..|qs| - 1]) + [Write(QueryCommand(channel, qs[|qs| - 1])), Read]
  }

  /** One query, as the loop body makes it. */
  method ReadQuery(instr: Instrument, cmd: string) returns (value: string)
    modifies instr
    ensures var r := ReadOne(old(instr.replies), cmd);
            && value == r.value && instr.replies == r.rest && instr.timeout == old(instr.timeout)
            && instr.sent == old(instr.sent) + Stamp(r.calls, old(instr.timeout))
  {
    StampShort(Write(cmd), Read, Clear, instr.timeout);
    StampShort(Write(cmd), Clear, Clear, instr.timeout);
    var written := instr.Perform(Write(cmd));
    if written.Raise? {
      var _ := instr.Perform(Clear);
      return "ERROR";
    }
    var answer := instr.Perform(Read);
    if answer.Raise? {
      var _ := instr.Perform(Clear);
      return "ERROR";
    }
    value := Strip(answer.text);
  }

  /** The next query of the sweep over `qs`, as the loop body makes it. */
  method ReadNext(instr: Instrument, ghost q: seq<Reply>, ghost before: seq<Logged>, channel: string, qs: seq<string>,
                  results: map<string, string>) returns (results': map<string, string>)
    modifies instr
    requires qs != []
    requires var s := ReadAll(q, channel, qs[..|qs| - 1]);
             && results == s.results && instr.replies == s.rest && instr.sent == before + Stamp(s.calls, instr.timeout)
    ensures var s := ReadAll(q, channel, qs);
            && results' == s.results && instr.replies == s.rest && instr.timeout == old(instr.timeout)
            && instr.sent == before + Stamp(s.calls, instr.timeout)
  {
    ghost var s := ReadAll(q, channel, qs[..|qs| - 1]);
    var cmd := QueryCommand(channel, qs[|qs| - 1]);
    ghost var r := ReadOne(s.rest, cmd);
    StampAppend(s.calls, r.calls, instr.timeout);
    AppendAssoc(before, Stamp(s.calls, instr.timeout), Stamp(r.calls, instr.timeout));
    var value := ReadQuery(instr, cmd);
    results' := results[qs[|qs| - 1] := value];
  }

  /** `SDG60ReadParameters(instr, **kwargs)`: the results dictionary it returns. */
  method ReadParameters(instr: Instrument, f: Formats, kw: Kwargs) returns (results: map<string, string>)
    modifies instr
    ensures var s := ReadAll(old(instr.replies), ChannelText(f, kw), Queries);
            && results == s.results && instr.replies == s.rest && instr.timeout == old(instr.timeout)
            && instr.sent == old(instr.sent) + Stamp(s.calls, old(instr.timeout))
  {
    var channel := ChannelText(f, kw);
    results := map[];
    var i := 0;
    while i < |Queries|
      invariant 0 <= i <= |Queries| && instr.timeout == old(instr.timeout)
      invariant var s := ReadAll(old(instr.replies), channel, Queries[..i]);
                && results == s.results && instr.replies == s.rest
                && instr.sent == old(instr.sent) + Stamp(s.calls, old(instr.timeout))
    {
      assert Queries[..i + 1][..i] == Queries[..i];
      results := ReadNext(instr, old(instr.replies), old(instr.sent), channel, Queries[..i + 1], results);
      i := i + 1;
    }
    assert Queries[..|Queries|] == Queries;
  }

  // ---------------------------------------------------------------------------
  // SDG60Initialize
  // ---------------------------------------------------------------------------

  /** The channels switched, in order. */
  const Channels: seq<int> := [1, 2]

  /** `f"C{channel}:OUTP ON"` or `... OFF`, with the terminator the source adds. */
  function OutputCommand(channel: int, on: bool): string {
    "C" + IntToString(channel) + ":OUTP " + (if on then "ON" else "OFF") + "\n"
  }

  function OutputCalls(channels: seq<int>, on: bool): (cs: seq<Call>)
    ensures |cs| == |channels|
  {
    if channels == [] then [] else OutputCalls(channels[..|channels| - 1], on) + [Write(OutputCommand(channels[|channels| - 1], on))]
  }

  /** One output command per channel, in the order of the channels. */
  lemma {:induction false} OutputCallsAt(channels: seq<int>, on: bool, i: nat)
    requires i < |channels|
    ensures OutputCalls(channels, on)[i] == Write(OutputCommand(channels[i], on))
    decreases |channels|
  {
    if i < |channels| - 1 {
      OutputCallsAt(channels[..|channels| - 1], on, i);
    }
  }

  /** Both outputs to the requested state, then `*RST`. */
  function InitCalls(on: bool): seq<Call> {
    OutputCalls(Channels, on) + [Write("*RST\n")]
  }

  /** `kwargs.get('OUTPUT_ENABLED', False)`, tested for truth. */
  predicate ShouldBeOn(kw: Kwargs) {
    Truthy(Get(kw, "OUTPUT_ENABLED", VBool(false)))
  }

  /** Every output command asks for the same state, which is on exactly when the request
      says so, a missing key meaning off; the reset is the last call. */
  lemma InitCallsShape(kw: Kwargs)
    ensures var cs := InitCalls(ShouldBeOn(kw));
            && |cs| == |Channels| + 1 && cs[|cs| - 1] == Write("*RST\n")
            && (forall i :: 0 <= i < |Channels| ==> cs[i] == Write(OutputCommand(Channels[i], ShouldBeOn(kw))))
            && ("OUTPUT_ENABLED" !in kw ==> forall i :: 0 <= i < |Channels| ==> EndsWith(cs[i].text, "OFF\n"))
  {
    var on := ShouldBeOn(kw);
    var cs := InitCalls(on);
    forall i | 0 <= i < |Channels|
      ensures cs[i] == Write(OutputCommand(Channels[i], on))
      ensures "OUTPUT_ENABLED" !in kw ==> EndsWith(cs[i].text, "OFF\n")
    {
      assert cs[i] == OutputCalls(Channels, on)[i];
      OutputCallsAt(Channels, on, i);
      var t := OutputCommand(Channels[i], on);
      if "OUTPUT_ENABLED" !in kw {
        assert t == ("C" + IntToString(Channels[i]) + ":OUTP ") + "OFF\n";
        SuffixEndsWith("C" + IntToString(Channels[i]) + ":OUTP ", "OFF\n");
      }
    }
  }

  lemma SuffixEndsWith(a: string, b: string)
    ensures EndsWith(a + b, b)
  {
    assert (a + b)[|a + b| - |b|..] == b;
  }

  /** `SDG60Initialize(instr, **kwargs)`: an exception from a write ends the operation. */
  method Initialize(instr: Instrument, kw: Kwargs) returns (r: Result<Value>)
    modifies instr
    ensures var o := TryCalls(old(instr.replies), InitCalls(ShouldBeOn(kw)));
            && instr.sent == old(instr.sent) + Stamp(o.made, old(instr.timeout))
            && instr.replies == o.rest && instr.timeout == old(instr.timeout)
            && r == (if o.raised then Err(VisaIOError(o.text)) else Ok(VNull))
  {
    var on := ShouldBeOn(kw);
    ghost var q, before := instr.replies, instr.sent;
    ghost var calls := InitCalls(on);
    var i := 0;
    while i < |Channels|
      invariant 0 <= i <= |Channels| && instr.timeout == old(instr.timeout)
      invariant i == 0 ==> instr.sent == before && instr.replies == q
      invariant i > 0 ==> var o := TryCalls(q, calls[..i]);
                          && !o.raised && instr.sent == before + Stamp(o.made, instr.timeout) && instr.replies == o.rest
    {
      OutputCallsAt(Channels, on, i);
      assert calls[i] == Write(OutputCommand(Channels[i], on));
      assert calls[..i] + [calls[i]] == calls[..i + 1];
      var reply := instr.Step(q, before, calls[..i], Write(OutputCommand(Channels[i], on)));
      if reply.Raise? {
        TryCallsRaisedPrefix(q, calls, i + 1);
        return Err(VisaIOError(reply.message));
      }
      i := i + 1;
    }
    assert calls[..|Channels|] + [Write("*RST\n")] == calls;
    var reply := instr.Step(q, before, calls[..|Channels|], Write("*RST\n"));
    r := if reply.Raise? then Err(VisaIOError(reply.message)) else Ok(VNull);
  }

  // ---------------------------------------------------------------------------
  // SDG60RefClock
  // ---------------------------------------------------------------------------

  /** `set_reference`: `ROSC INT` when the source equals 1 (Python `==`), else `ROSC EXT`. */
  function ReferenceCommand(refSource: Value): string {
    "ROSC " + (if EqualsInt(refSource, 1) then "INT" else "EXT")
  }

  const ReferenceQuery := "ROSC?"
  const ReferenceOutOn := "10MOUT,ON"

  /** `change_reference_out`: two front-panel key presses. */
  const ToggleCalls: seq<Call> := [Write("VKEY VALUE,18,STATE,1"), Write("VKEY VALUE,23,STATE,1")]

  /** `reference_out_device != ref_out`, with the Python `bool` compared by value. */
  predicate Toggles(answer: string, refOut: Value) {
    !EqualsInt(refOut, if Contains(answer, ReferenceOutOn) then 1 else 0)
  }

  /** The calls after the state is read: the toggle when it is due, then the final query. */
  function AfterRead(answer: string, refOut: Value): seq<Call> {
    (if Toggles(answer, refOut) then ToggleCalls else []) + [Ask(ReferenceQuery)]
  }

  /** Setting the source and reading the output state. */
  function ReadState(refSource: Value): seq<Call> {
    [Write(ReferenceCommand(refSource)), Ask(ReferenceQuery)]
  }

  /** `SDG60RefClock` as a function of the replies: the later calls depend on the state
      read by the first two. */
  function RefClockRun(q: seq<Reply>, refSource: Value, refOut: Value): Outcome {
    var first := TryCalls(q, ReadState(refSource));
    if first.raised then first else TryCalls(q, ReadState(refSource) + AfterRead(first.text, refOut))
  }

  /** The reference source is set before anything else.  Once the output state has been
      read, the run goes on with the key presses exactly when that state differs from
      the one asked for, and then reads the state again. */
  lemma RefClockCalls(q: seq<Reply>, refSource: Value, refOut: Value)
    ensures var o := RefClockRun(q, refSource, refOut);
            |o.made| >= 1 && o.made[0] == Write(ReferenceCommand(refSource))
    ensures Next(q).Answer? && Next(Rest(q)).Answer? ==>
              var o := RefClockRun(q, refSource, refOut);
              var answer := Next(Rest(q)).text;
              o == TryCalls(q, ReadState(refSource) + AfterRead(answer, refOut))
              && (!o.raised ==> o.made == ReadState(refSource) + AfterRead(answer, refOut))
  {
    var calls := ReadState(refSource);
    TryCallsShort(q, calls[0], calls[1], calls[1]);
    assert calls == [calls[0], calls[1]];
    var first := TryCalls(q, calls);
    if !first.raised {
      var all := calls + AfterRead(first.text, refOut);
      TryCallsPrefix(q, all);
      assert all[0] == calls[0];
    }
  }

  /** With a boolean `ref_out`, the keys are pressed exactly when the reported state
      (whether the answer contains `10MOUT,ON`) is not the one asked for. */
  lemma TogglesBool(answer: string, b: bool)
    ensures Toggles(answer, VBool(b)) <==> Contains(answer, ReferenceOutOn) != b
    ensures |AfterRead(answer, VBool(b))| == if Contains(answer, ReferenceOutOn) == b then 1 else 3
  {
  }

  /** The second half of `SDG60RefClock`, once the output state has been read. */
  method AdjustReferenceOut(instr: Instrument, ghost q: seq<Reply>, ghost before: seq<Logged>, refSource: Value,
                            answer: string, refOut: Value) returns (r: Result<Value>)
    modifies instr
    requires var o := TryCalls(q, ReadState(refSource));
             && !o.raised && o.text == answer
             && instr.sent == before + Stamp(o.made, instr.timeout) && instr.replies == o.rest
    ensures var o := TryCalls(q, ReadState(refSource) + AfterRead(answer, refOut));
            && instr.sent == before + Stamp(o.made, instr.timeout)
            && instr.replies == o.rest && instr.timeout == old(instr.timeout)
            && r == (if o.raised then Err(VisaIOError(o.text)) else Ok(VNull))
  {
    ghost var calls := ReadState(refSource) + AfterRead(answer, refOut);
    assert calls[..2] == ReadState(refSource);
    ghost var k := 2;
    var reply: Reply;
    if Toggles(answer, refOut) {
      assert |calls| == 5 && calls[2] == ToggleCalls[0] && calls[3] == ToggleCalls[1];
      assert calls[..2] + [calls[2]] == calls[..3];
      reply := instr.Step(q, before, calls[..2], ToggleCalls[0]);
      if reply.Raise? {
        TryCallsRaisedPrefix(q, calls, 3);
        return Err(VisaIOError(reply.message));
      }
      assert calls[..3] + [calls[3]] == calls[..4];
      reply := instr.Step(q, before, calls[..3], ToggleCalls[1]);
      if reply.Raise? {
        TryCallsRaisedPrefix(q, calls, 4);
        return Err(VisaIOError(reply.message));
      }
      k := 4;
    }
    assert calls[..k] + [Ask(ReferenceQuery)] == calls;
    reply := instr.Step(q, before, calls[..k], Ask(ReferenceQuery));
    r := if reply.Raise? then Err(VisaIOError(reply.message)) else Ok(VNull);
  }

  /** `SDG60RefClock(instr, ref_source, ref_out)`; the final answer is only printed. */
  method RefClock(instr: Instrument, refSource: Value, refOut: Value) returns (r: Result<Value>)
    modifies instr
    ensures var o := RefClockRun(old(instr.replies), refSource, refOut);
            && instr.sent == old(instr.sent) + Stamp(o.made, old(instr.timeout))
            && instr.replies == o.rest && instr.timeout == old(instr.timeout)
            && r == (if o.raised then Err(VisaIOError(o.text)) else Ok(VNull))
  {
    ghost var q, before := instr.replies, instr.sent;
    var setSource := Write(ReferenceCommand(refSource));
    var ask := Ask(ReferenceQuery);
    ghost var calls := ReadState(refSource);
    assert calls[..1] == [] + [setSource] && calls[..1] + [ask] == calls;
    var reply := instr.Step(q, before, [], setSource);
    if reply.Raise? {
      TryCallsRaisedPrefix(q, calls, 1);
      return Err(VisaIOError(reply.message));
    }
    reply := instr.Step(q, before, calls[..1], ask);
    if reply.Raise? {
      return Err(VisaIOError(reply.message));
    }
    r := AdjustReferenceOut(instr, q, before, refSource, reply.text, refOut);
  }

  // ---------------------------------------------------------------------------
  // SDG6022X.upload_custom_waveform
  // ---------------------------------------------------------------------------

  /** `f"C{channel}:WVDT WVNM,{name},WAVEDATA,"` */
  function WaveCommand(channel: string, name: string): string {
    "C" + channel + ":WVDT WVNM," + name + ",WAVEDATA,"
  }

  /** `cmd_bytes + header + payload` for the float32 payload of `w`. */
  function WaveMessage(cmd: string, enc: real -> Float32Bytes, w: seq<real>): seq<byte> {
    var payload := Float32Payload(enc, w);
    Ascii(cmd) + Ascii(BlockHeader(|payload|)) + payload
  }

  /** The block, then `*WAI`, then the selection of the uploaded wave. */
  function WaveCalls(channel: string, name: string, enc: real -> Float32Bytes, w: seq<real>): seq<Call> {
    [WriteRaw(WaveMessage(WaveCommand(channel, name), enc, w)), Write("*WAI"),
     Write("C" + channel + ":ARWV NAME," + name)]
  }

  /** The message is the command's bytes followed by a definite-length block of 4 bytes
      per sample, each the float32 encoding of its sample, for fewer than 250000000
      samples (a byte count of at most nine digits). */
  lemma WaveMessageRoundTrip(cmd: string, enc: real -> Float32Bytes, w: seq<real>)
    requires IsAscii(cmd) && 4 * |w| < Pow10(9)
    ensures var m := WaveMessage(cmd, enc, w);
            var p := Float32Payload(enc, w);
            && |cmd| <= |m| && Chars(m[..|cmd|]) == cmd
            && ParseBlock(m[|cmd|..]) == Some((p, []))
            && |p| == 4 * |w| && forall i :: 0 <= i < |w| ==> p[4 * i..4 * i + 4] == enc(w[i])
  {
    var c := Ascii(cmd);
    var payload := Float32Payload(enc, w);
    var block := Ascii(BlockHeader(|payload|)) + payload;
    assert WaveMessage(cmd, enc, w) == c + block;
    SplitAt(c, block);
    CharsAscii(cmd);
    BlockRoundTrip(payload, []);
    AppendEmpty(block);
  }

  /** `upload_custom_waveform(name, waveform, channel)`: a command that is not ASCII
      raises while encoding, before anything is written. */
  method UploadCustomWaveform(instr: Instrument, f: Formats, enc: real -> Float32Bytes, name: Value, w: seq<real>, channel: Value)
    returns (r: Result<Value>)
    modifies instr
    ensures var ch, nm := Str(f, channel), Str(f, name);
            && (!IsAscii(WaveCommand(ch, nm)) ==>
                  r == Err(UnicodeEncodeError) && instr.sent == old(instr.sent) && instr.replies == old(instr.replies))
            && (IsAscii(WaveCommand(ch, nm)) ==>
                  var o := TryCalls(old(instr.replies), WaveCalls(ch, nm, enc, w));
                  && instr.sent == old(instr.sent) + Stamp(o.made, old(instr.timeout))
                  && instr.replies == o.rest
                  && r == (if o.raised then Err(VisaIOError(o.text)) else Ok(VNull)))
    ensures instr.timeout == old(instr.timeout)
  {
    var ch, nm := Str(f, channel), Str(f, name);
    if !IsAscii(WaveCommand(ch, nm)) {
      return Err(UnicodeEncodeError);
    }
    ghost var q, before := instr.replies, instr.sent;
    var calls := WaveCalls(ch, nm, enc, w);
    assert calls == [calls[0]] + [calls[1]] + [calls[2]];
    var reply := instr.Step(q, before, [], calls[0]);
    if reply.Raise? {
      TryCallsAppend(q, [calls[0]], calls[1..]);
      return Err(VisaIOError(reply.message));
    }
    reply := instr.Step(q, before, [calls[0]], calls[1]);
    if reply.Raise? {
      TryCallsAppend(q, calls[..2], [calls[2]]);
      return Err(VisaIOError(reply.message));
    }
    reply := instr.Step(q, before, calls[..2], calls[2]);
    r := if reply.Raise? then Err(VisaIOError(reply.message)) else Ok(VNull);
  }
}
