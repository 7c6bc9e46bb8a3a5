/** The 33600A binary upload path: raw DAC codes framed as an IEEE 488.2 definite-length
    block and written with a bounded retry loop (`_upload_custom_waveform_dac_binary`),
    the split of a long waveform into chunks stored in consecutive ARB memories
    (`load_split_and_upload_dac`), and loading a stored ARB file (`A33LoadARB`). */
module Agilent33600AUpload {
  import opened Python
  import opened Scpi
  import opened Visa
  import opened Agilent33600A

  const UploadTimeout := 60000
  const NoError := "+0,\"No error\""
  const DefaultAttempts := 10

  /** `f"FORM:BORD SWAP;:SOUR{channel}:DATA:ARB:DAC ARB{arb_index},"` */
  function DacCommand(arbIndex: int, channel: int): string {
    "FORM:BORD SWAP;:SOUR" + IntToString(channel) + ":DATA:ARB:DAC ARB" + IntToString(arbIndex) + ","
  }

  /** The whole message `cmd + header + payload`, with the samples cast to int16. */
  function DacMessage(waveform: seq<int>, arbIndex: int, channel: int): seq<byte> {
    var payload := Int16Payload(waveform);
    Ascii(DacCommand(arbIndex, channel)) + Ascii(BlockHeader(|payload|)) + payload
  }

  /** The command is ASCII, so `encode("ascii")` does not raise on it, and its bytes
      read back as the command. */
  lemma DacCommandAscii(arbIndex: int, channel: int)
    ensures IsAscii(DacCommand(arbIndex, channel))
    ensures Chars(Ascii(DacCommand(arbIndex, channel))) == DacCommand(arbIndex, channel)
  {
    IntToStringAscii(channel);
    IntToStringAscii(arbIndex);
    var c, a := IntToString(channel), IntToString(arbIndex);
    AsciiAppend("FORM:BORD SWAP;:SOUR", c);
    AsciiAppend("FORM:BORD SWAP;:SOUR" + c, ":DATA:ARB:DAC ARB");
    AsciiAppend("FORM:BORD SWAP;:SOUR" + c + ":DATA:ARB:DAC ARB", a);
    AsciiAppend("FORM:BORD SWAP;:SOUR" + c + ":DATA:ARB:DAC ARB" + a, ",");
    CharsAscii(DacCommand(arbIndex, channel));
  }

  /** The message is the command's bytes followed by a definite-length block that reads
      back as the int16 payload, for any waveform of fewer than 5 * 10**8 samples (a byte
      count of at most nine digits); `Int16PayloadRoundTrip` reads the payload back as the
      samples after the int16 cast. */
  lemma DacMessageRoundTrip(waveform: seq<int>, arbIndex: int, channel: int)
    requires 2 * |waveform| < Pow10(9)
    ensures var cmd := Ascii(DacCommand(arbIndex, channel));
            var m := DacMessage(waveform, arbIndex, channel);
            |cmd| <= |m| && m[..|cmd|] == cmd
            && ParseBlock(m[|cmd|..]) == Some((Int16Payload(waveform), []))
  {
    var cmd := Ascii(DacCommand(arbIndex, channel));
    var payload := Int16Payload(waveform);
    var block := Ascii(BlockHeader(|payload|)) + payload;
    assert DacMessage(waveform, arbIndex, channel) == cmd + block;
    SplitAt(cmd, block);
    BlockRoundTrip(payload, []);
    AppendEmpty(block);
  }

  // ---------------------------------------------------------------------------
  // The retry loop, as a specification
  // ---------------------------------------------------------------------------

  /** One attempt: the calls it makes, the replies left, whether it succeeded, and the
      error text it records when it did not. */
  datatype Attempt = Attempt(calls: seq<Call>, rest: seq<Reply>, ok: bool, err: string)

  function UploadCalls(message: seq<byte>): seq<Call> {
    [WriteRaw(message), Ask("*OPC?"), Ask("SYST:ERR?")]
  }

  /** write_raw(message); ask("*OPC?"); ask("SYST:ERR?").  Any call that raises ends the
      attempt with `str(e)`; otherwise it succeeds exactly when the error queue answers
      `+0,"No error"`, and fails with that answer. */
  function TryUpload(q: seq<Reply>, message: seq<byte>): Attempt {
    var o := TryCalls(q, UploadCalls(message));
    Attempt(o.made, o.rest, !o.raised && o.text == NoError, o.text)
  }

  /** The attempt the loop repeats, as a function of the replies still to come. */
  function UploadAttempt(message: seq<byte>): seq<Reply> -> Attempt {
    q => TryUpload(q, message)
  }

  /** The attempt, case by case on the replies: it stops at the first call that raises,
      recording the exception text; when all three calls answer it succeeds exactly when
      the error queue answered `+0,"No error"`, and otherwise records that answer. */
  lemma TryUploadCases(q: seq<Reply>, message: seq<byte>)
    ensures var a, r1, r2, r3 := TryUpload(q, message), Next(q), Next(Rest(q)), Next(Rest(Rest(q)));
            var w, opc, err := WriteRaw(message), Ask("*OPC?"), Ask("SYST:ERR?");
            (r1.Raise? ==> a == Attempt([w], Rest(q), false, r1.message))
            && (r1.Answer? && r2.Raise? ==> a == Attempt([w, opc], Rest(Rest(q)), false, r2.message))
            && (r1.Answer? && r2.Answer? && r3.Raise? ==>
                  a == Attempt([w, opc, err], Rest(Rest(Rest(q))), false, r3.message))
            && (r1.Answer? && r2.Answer? && r3.Answer? ==>
                  a == Attempt([w, opc, err], Rest(Rest(Rest(q))), r3.text == NoError, r3.text))
  {
    var calls := UploadCalls(message);
    assert calls[1..] == [Ask("*OPC?"), Ask("SYST:ERR?")];
    assert calls[1..][1..] == [Ask("SYST:ERR?")];
    var o2 := TryCalls(Rest(Rest(q)), calls[1..][1..]);
    var o1 := TryCalls(Rest(q), calls[1..]);
    var o0 := TryCalls(q, calls);
  }

  /** The outcome of the loop: all calls, the replies left, success, the last error
      recorded (None when no attempt failed) and the number of attempts made. */
  datatype Run = Run(calls: seq<Call>, rest: seq<Reply>, success: bool, lastErr: Option<string>, attempts: nat)

  /** `for attempt in range(1, n + 1)` over the body `attempt`, with `remaining` attempts
      left and `lastErr` recorded so far. */
  function Retry(attempt: seq<Reply> -> Attempt, q: seq<Reply>, remaining: nat, lastErr: Option<string>): Run
    decreases remaining
  {
    if remaining == 0 then Run([], q, false, lastErr, 0)
    else
      var a := attempt(q);
      if a.ok then Run(a.calls, a.rest, true, lastErr, 1)
      else
        var r := Retry(attempt, a.rest, remaining - 1, Some(a.err));
        Run(a.calls + r.calls, r.rest, r.success, r.lastErr, r.attempts + 1)
  }

  /** `range(1, max_attempts + 1)` is empty for max_attempts <= 0. */
  function AttemptCount(maxAttempts: int): nat {
    if maxAttempts < 0 then 0 else maxAttempts
  }

  function LastErrText(lastErr: Option<string>): string {
    if lastErr.None? then "None" else lastErr.value
  }

  function FailureMessage(maxAttempts: int, lastErr: Option<string>): string {
    "Failed to upload ARB waveform after " + IntToString(maxAttempts) + " attempts. Last error: "
    + LastErrText(lastErr)
  }

  function WriteRawCount(cs: seq<Call>): nat {
    if cs == [] then 0 else WriteRawCount(cs[..|cs| - 1]) + (if cs[|cs| - 1].WriteRaw? then 1 else 0)
  }

  lemma {:induction false} WriteRawCountAppend(a: seq<Call>, b: seq<Call>)
    ensures WriteRawCount(a + b) == WriteRawCount(a) + WriteRawCount(b)
    decreases |b|
  {
    if b == [] {
      assert a + b == a;
    } else {
      WriteRawCountAppend(a, b[..|b| - 1]);
      assert (a + b)[..|a + b| - 1] == a + b[..|b| - 1];
    }
  }

  /** Every attempt writes the block exactly once, whichever call raises. */
  lemma UploadWritesOnce(message: seq<byte>)
    ensures forall q :: WriteRawCount(UploadAttempt(message)(q).calls) == 1
  {
    var w, opc, err := WriteRaw(message), Ask("*OPC?"), Ask("SYST:ERR?");
    assert WriteRawCount([w]) == 1 by {
      assert [w][..0] == [];
    }
    assert WriteRawCount([w, opc]) == 1 by {
      assert [w, opc][..1] == [w];
    }
    assert WriteRawCount([w, opc, err]) == 1 by {
      assert [w, opc, err][..2] == [w, opc];
    }
    forall q ensures WriteRawCount(UploadAttempt(message)(q).calls) == 1 {
      assert UploadAttempt(message)(q) == TryUpload(q, message);
      TryUploadCases(q, message);
    }
  }

  /** When every attempt writes the block once, the loop writes it once per attempt and
      never more than `remaining` times; a success is the last attempt, and a failure
      uses up every attempt. */
  lemma {:induction false} RetryWriteCount(attempt: seq<Reply> -> Attempt, q: seq<Reply>, remaining: nat, lastErr: Option<string>)
    requires forall q' :: WriteRawCount(attempt(q').calls) == 1
    ensures var run := Retry(attempt, q, remaining, lastErr);
            WriteRawCount(run.calls) == run.attempts <= remaining
            && (run.success ==> run.attempts >= 1)
            && (!run.success ==> run.attempts == remaining)
    decreases remaining
  {
    if remaining > 0 {
      var a := attempt(q);
      if !a.ok {
        var r := Retry(attempt, a.rest, remaining - 1, Some(a.err));
        RetryWriteCount(attempt, a.rest, remaining - 1, Some(a.err));
        WriteRawCountAppend(a.calls, r.calls);
      }
    }
  }

  /** The replies left before attempt k (counting from 0), had all earlier attempts failed. */
  function Before(attempt: seq<Reply> -> Attempt, q: seq<Reply>, k: nat): seq<Reply>
    decreases k
  {
    if k == 0 then q else attempt(Before(attempt, q, k - 1)).rest
  }

  lemma {:induction false} BeforeShift(attempt: seq<Reply> -> Attempt, q: seq<Reply>, k: nat)
    ensures Before(attempt, attempt(q).rest, k) == Before(attempt, q, k + 1)
    decreases k
  {
    if k > 0 {
      BeforeShift(attempt, q, k - 1);
    }
  }

  /** Attempt k (from 0) fails, had all earlier attempts failed. */
  predicate FailsAt(attempt: seq<Reply> -> Attempt, q: seq<Reply>, k: nat) {
    !attempt(Before(attempt, q, k)).ok
  }

  lemma FailsAtShift(attempt: seq<Reply> -> Attempt, q: seq<Reply>, k: nat)
    ensures FailsAt(attempt, attempt(q).rest, k) == FailsAt(attempt, q, k + 1)
  {
    BeforeShift(attempt, q, k);
  }

  /** On success the loop stopped at the first attempt that succeeds: every earlier one failed. */
  lemma {:induction false} RetrySuccessIsFirst(attempt: seq<Reply> -> Attempt, q: seq<Reply>, remaining: nat, lastErr: Option<string>)
    ensures var run := Retry(attempt, q, remaining, lastErr);
            run.success ==> 1 <= run.attempts <= remaining
                            && !FailsAt(attempt, q, run.attempts - 1)
                            && forall k :: 0 <= k < run.attempts - 1 ==> FailsAt(attempt, q, k)
    decreases remaining
  {
    var run := Retry(attempt, q, remaining, lastErr);
    if remaining > 0 && run.success {
      var a := attempt(q);
      if a.ok {
        assert run.attempts == 1;
      } else {
        var r := Retry(attempt, a.rest, remaining - 1, Some(a.err));
        assert run.attempts == r.attempts + 1 && r.success;
        RetrySuccessIsFirst(attempt, a.rest, remaining - 1, Some(a.err));
        FailsAtShift(attempt, q, r.attempts - 1);
        forall k | 0 <= k < run.attempts - 1 ensures FailsAt(attempt, q, k) {
          if k > 0 {
            FailsAtShift(attempt, q, k - 1);
          }
        }
      }
    }
  }

  /** When the loop fails, every one of its attempts failed. */
  lemma {:induction false} RetryFailureAllFail(attempt: seq<Reply> -> Attempt, q: seq<Reply>, remaining: nat, lastErr: Option<string>)
    ensures !Retry(attempt, q, remaining, lastErr).success ==> forall k :: 0 <= k < remaining ==> FailsAt(attempt, q, k)
    decreases remaining
  {
    if remaining > 0 && !Retry(attempt, q, remaining, lastErr).success {
      var a := attempt(q);
      assert !a.ok;
      RetryFailureAllFail(attempt, a.rest, remaining - 1, Some(a.err));
      forall k | 0 <= k < remaining ensures FailsAt(attempt, q, k) {
        if k > 0 {
          FailsAtShift(attempt, q, k - 1);
        }
      }
    }
  }

  /** A failed loop consumed the replies of all its attempts, and the error it reports
      is the one the last attempt recorded. */
  lemma {:induction false} RetryFailureLastError(attempt: seq<Reply> -> Attempt, q: seq<Reply>, remaining: nat, lastErr: Option<string>)
    requires remaining > 0
    ensures var run := Retry(attempt, q, remaining, lastErr);
            !run.success ==> run.rest == Before(attempt, q, remaining)
                             && run.lastErr == Some(attempt(Before(attempt, q, remaining - 1)).err)
    decreases remaining
  {
    var run := Retry(attempt, q, remaining, lastErr);
    if !run.success {
      var a := attempt(q);
      assert !a.ok;
      var r := Retry(attempt, a.rest, remaining - 1, Some(a.err));
      assert run.rest == r.rest && run.lastErr == r.lastErr;
      BeforeShift(attempt, q, remaining - 1);
      if remaining > 1 {
        RetryFailureLastError(attempt, a.rest, remaining - 1, Some(a.err));
        BeforeShift(attempt, q, remaining - 2);
      }
    }
  }

  // ---------------------------------------------------------------------------
  // _upload_custom_waveform_dac_binary
  // ---------------------------------------------------------------------------

  /** The loop of the upload itself, written out with its attempt so that the method
      proofs need no function values; it is `Retry` over `UploadAttempt`. */
  function RetryUpload(q: seq<Reply>, message: seq<byte>, remaining: nat, lastErr: Option<string>): (run: Run)
    decreases remaining
  {
    if remaining == 0 then Run([], q, false, lastErr, 0)
    else
      var a := TryUpload(q, message);
      if a.ok then Run(a.calls, a.rest, true, lastErr, 1)
      else
        var r := RetryUpload(a.rest, message, remaining - 1, Some(a.err));
        Run(a.calls + r.calls, r.rest, r.success, r.lastErr, r.attempts + 1)
  }

  lemma {:induction false} RetryUploadIsRetry(q: seq<Reply>, message: seq<byte>, remaining: nat, lastErr: Option<string>)
    ensures RetryUpload(q, message, remaining, lastErr) == Retry(UploadAttempt(message), q, remaining, lastErr)
    decreases remaining
  {
    if remaining > 0 {
      var a := TryUpload(q, message);
      assert UploadAttempt(message)(q) == a;
      RetryUploadIsRetry(a.rest, message, remaining - 1, Some(a.err));
    }
  }

  /** The body of the `try` block: one attempt on the instrument. */
  method AttemptUpload(instr: Instrument, message: seq<byte>) returns (ok: bool, err: string)
    modifies instr
    ensures var a := TryUpload(old(instr.replies), message);
            ok == a.ok && err == a.err && instr.replies == a.rest
            && instr.sent == old(instr.sent) + Stamp(a.calls, old(instr.timeout))
            && instr.timeout == old(instr.timeout)
  {
    StampShort(WriteRaw(message), Ask("*OPC?"), Ask("SYST:ERR?"), instr.timeout);
    TryUploadCases(instr.replies, message);
    var reply := instr.Perform(WriteRaw(message));
    if reply.Raise? {
      return false, reply.message;
    }
    reply := instr.Perform(Ask("*OPC?"));
    if reply.Raise? {
      return false, reply.message;
    }
    reply := instr.Perform(Ask("SYST:ERR?"));
    if reply.Raise? {
      return false, reply.message;
    }
    return reply.text == NoError, reply.text;
  }

  /** One turn of the loop, as `RetryUpload` takes it. */
  lemma RetryUploadStep(q: seq<Reply>, message: seq<byte>, remaining: nat, lastErr: Option<string>)
    requires remaining > 0
    ensures var a, run := TryUpload(q, message), RetryUpload(q, message, remaining, lastErr);
            (a.ok ==> run.calls == a.calls && run.rest == a.rest && run.success)
            && (!a.ok ==> var next := RetryUpload(a.rest, message, remaining - 1, Some(a.err));
                          run.calls == a.calls + next.calls && run.rest == next.rest
                          && run.success == next.success && run.lastErr == next.lastErr)
  {
  }

  /** One turn of the loop: an attempt, and what is left of the run after it. */
  method RetryTurn(instr: Instrument, message: seq<byte>, remaining: nat, lastErr: Option<string>)
    returns (ok: bool, err: string)
    requires remaining > 0 && instr.timeout == UploadTimeout
    modifies instr
    ensures instr.timeout == UploadTimeout
    ensures var run := RetryUpload(old(instr.replies), message, remaining, lastErr);
            ok ==> run.success && run.rest == instr.replies
                   && instr.sent == old(instr.sent) + Stamp(run.calls, UploadTimeout)
    ensures var run := RetryUpload(old(instr.replies), message, remaining, lastErr);
            var next := RetryUpload(instr.replies, message, remaining - 1, Some(err));
            !ok ==> old(instr.sent) + Stamp(run.calls, UploadTimeout) == instr.sent + Stamp(next.calls, UploadTimeout)
                    && run.rest == next.rest && run.success == next.success && run.lastErr == next.lastErr
  {
    ghost var a := TryUpload(instr.replies, message);
    ghost var sent1 := instr.sent;
    RetryUploadStep(instr.replies, message, remaining, lastErr);
    ok, err := AttemptUpload(instr, message);
    if !ok {
      TraceStep(sent1, instr.sent, RetryUpload(old(instr.replies), message, remaining, lastErr).calls, a.calls,
                RetryUpload(instr.replies, message, remaining - 1, Some(err)).calls);
    }
  }

  /** `for attempt in range(1, max_attempts + 1)` around the `try` block, at the upload
      timeout: it stops at the first success and otherwise records each failure. */
  method RetryLoop(instr: Instrument, message: seq<byte>, maxAttempts: int) returns (success: bool, lastErr: Option<string>)
    requires instr.timeout == UploadTimeout
    modifies instr
    ensures var run := RetryUpload(old(instr.replies), message, AttemptCount(maxAttempts), None);
            instr.sent == old(instr.sent) + Stamp(run.calls, UploadTimeout)
            && instr.replies == run.rest && instr.timeout == UploadTimeout
            && success == run.success && (!success ==> lastErr == run.lastErr)
  {
    ghost var run := RetryUpload(instr.replies, message, AttemptCount(maxAttempts), None);
    ghost var sent0 := instr.sent;
    var n := AttemptCount(maxAttempts);
    lastErr := None;
    ghost var left := run;
    var attempt := 1;
    while attempt <= maxAttempts
      invariant 1 <= attempt && (maxAttempts >= 0 ==> attempt <= maxAttempts + 1)
      invariant maxAttempts < 0 ==> attempt == 1
      invariant instr.timeout == UploadTimeout
      invariant left == RetryUpload(instr.replies, message, n - (attempt - 1), lastErr)
      invariant sent0 + Stamp(run.calls, UploadTimeout) == instr.sent + Stamp(left.calls, UploadTimeout)
      invariant run.rest == left.rest && run.success == left.success && run.lastErr == left.lastErr
      decreases maxAttempts - attempt
    {
      var ok, err := RetryTurn(instr, message, n - (attempt - 1), lastErr);
      if ok {
        return true, lastErr;
      }
      lastErr := Some(err);
      attempt := attempt + 1;
      left := RetryUpload(instr.replies, message, n - (attempt - 1), lastErr);
    }
    assert left == Run([], instr.replies, false, lastErr, 0);
    success := false;
  }

  /** The trace bookkeeping of one failed turn of the loop. */
  lemma TraceStep(before: seq<Logged>, after: seq<Logged>, left: seq<Call>, made: seq<Call>, next: seq<Call>)
    requires left == made + next && after == before + Stamp(made, UploadTimeout)
    ensures before + Stamp(left, UploadTimeout) == after + Stamp(next, UploadTimeout)
  {
    StampAppend(made, next, UploadTimeout);
    AppendAssoc(before, Stamp(made, UploadTimeout), Stamp(next, UploadTimeout));
  }

  /** Uploads `waveform` to ARB memory `arbIndex`.  All calls are made with the timeout
      at 60000 ms; the previous timeout is back in force afterwards whether the upload
      succeeded or not; a failure raises RuntimeError naming `max_attempts` and the last
      error, and `max_attempts <= 0` raises without any call. */
  method UploadDacBinary(instr: Instrument, waveform: seq<int>, arbIndex: int, channel: int, maxAttempts: int)
    returns (r: Result<()>)
    modifies instr
    ensures var run := RetryUpload(old(instr.replies), DacMessage(waveform, arbIndex, channel), AttemptCount(maxAttempts), None);
            instr.sent == old(instr.sent) + Stamp(run.calls, UploadTimeout)
            && instr.replies == run.rest
            && instr.timeout == old(instr.timeout)
            && (r.Ok? <==> run.success)
            && (r.Err? ==> r.error == RuntimeError(FailureMessage(maxAttempts, run.lastErr)))
    ensures maxAttempts <= 0 ==> instr.sent == old(instr.sent) && r.Err?
  {
    var message := DacMessage(waveform, arbIndex, channel);
    var oldTimeout := instr.timeout;
    instr.SetTimeout(UploadTimeout);
    var success, lastErr := RetryLoop(instr, message, maxAttempts);
    instr.SetTimeout(oldTimeout);
    if success {
      return Ok(());
    }
    r := Err(RuntimeError(FailureMessage(maxAttempts, lastErr)));
  }

  // ---------------------------------------------------------------------------
  // load_split_and_upload_dac
  // ---------------------------------------------------------------------------

  /** Python's `//`: the floor of the quotient (Dafny's `/` is Euclidean). */
  function FloorDiv(a: int, b: int): (q: int)
    requires b != 0
    ensures b > 0 ==> q == a / b
  {
    if b > 0 then a / b else (-a) / (-b)
  }

  /** A slice bound as Python normalises it: negative counts from the end, then clamped. */
  function SliceIndex(i: int, n: nat): (j: nat)
    ensures j <= n
    ensures 0 <= i <= n ==> j == i
  {
    if i < 0 then (if i + n < 0 then 0 else i + n) else if i > n then n else i
  }

  /** `w[lo:hi]` */
  function Slice(w: seq<int>, lo: int, hi: int): seq<int> {
    var a, b := SliceIndex(lo, |w|), SliceIndex(hi, |w|);
    if a < b then w[a..b] else []
  }

  /** `(total_points + chunk_size - 1) // chunk_size`, as `range` sees it. */
  function ChunkCount(total: nat, chunkSize: int): nat
    requires chunkSize != 0
  {
    var k := FloorDiv(total + chunkSize - 1, chunkSize);
    if k < 0 then 0 else k
  }

  /** `waveform[i * chunk_size : (i + 1) * chunk_size]` */
  function ChunkAt(w: seq<int>, chunkSize: int, i: int): seq<int> {
    Slice(w, i * chunkSize, (i + 1) * chunkSize)
  }

  /** The chunk for every `i` in `range(num_chunks)`. */
  function Chunks(w: seq<int>, chunkSize: int): (cs: seq<seq<int>>)
    requires chunkSize != 0
    ensures |cs| == ChunkCount(|w|, chunkSize)
    ensures forall i :: 0 <= i < |cs| ==> cs[i] == ChunkAt(w, chunkSize, i)
  {
    seq(ChunkCount(|w|, chunkSize), i requires 0 <= i => ChunkAt(w, chunkSize, i))
  }

  /** For a positive chunk size the number of chunks is the ceiling of total / chunk_size. */
  lemma ChunkCountIsCeiling(total: nat, chunkSize: int)
    requires chunkSize > 0
    ensures var k := ChunkCount(total, chunkSize);
            (k - 1) * chunkSize < total <= k * chunkSize
            && (k == 0 <==> total == 0)
  {
    var n := total + chunkSize - 1;
    var k := n / chunkSize;
    var r := n % chunkSize;
    assert n == k * chunkSize + r && 0 <= r < chunkSize;
    assert k * chunkSize == total + chunkSize - 1 - r;
    assert (k - 1) * chunkSize == k * chunkSize - chunkSize;
  }

  function Flatten(cs: seq<seq<int>>): seq<int> {
    if cs == [] then [] else Flatten(cs[..|cs| - 1]) + cs[|cs| - 1]
  }

  function Min(a: int, b: int): int { if a < b then a else b }

  /** Chunk i, for a positive chunk size, is the i-th run of chunk_size samples (the last
      one possibly shorter). */
  lemma ChunkShape(w: seq<int>, chunkSize: int, i: nat)
    requires chunkSize > 0 && i < ChunkCount(|w|, chunkSize)
    ensures i * chunkSize < |w|
    ensures Chunks(w, chunkSize)[i] == w[i * chunkSize..Min((i + 1) * chunkSize, |w|)]
    ensures 1 <= |Chunks(w, chunkSize)[i]| <= chunkSize
    ensures 0 <= i * chunkSize && (i + 1) * chunkSize == i * chunkSize + chunkSize
  {
    ChunkCountIsCeiling(|w|, chunkSize);
    RunBounds(i, ChunkCount(|w|, chunkSize), chunkSize, |w|);
    var lo, hi := i * chunkSize, (i + 1) * chunkSize;
    assert Chunks(w, chunkSize)[i] == ChunkAt(w, chunkSize, i) == Slice(w, lo, hi);
    SliceRun(w, lo, hi);
  }

  /** Run i of k runs of `size` starts inside a total that k - 1 runs do not cover. */
  lemma RunBounds(i: nat, k: nat, size: int, total: nat)
    requires size > 0 && i < k && (k - 1) * size < total
    ensures 0 <= i * size < total && (i + 1) * size == i * size + size
  {
    assert (k - 1 - i) * size >= 0;
    assert (k - 1) * size == i * size + (k - 1 - i) * size;
  }

  lemma SliceRun(w: seq<int>, lo: int, hi: int)
    requires 0 <= lo < |w| && lo < hi
    ensures Slice(w, lo, hi) == w[lo..Min(hi, |w|)]
  {
  }

  /** The chunks, put back together in order, are the waveform. */
  lemma {:induction false} ChunksFlatten(w: seq<int>, chunkSize: int)
    requires chunkSize > 0
    ensures Flatten(Chunks(w, chunkSize)) == w
  {
    var cs := Chunks(w, chunkSize);
    ChunkCountIsCeiling(|w|, chunkSize);
    FlattenPrefix(w, chunkSize, |cs|);
    assert cs[..|cs|] == cs;
    assert Min(|cs| * chunkSize, |w|) == |w|;
  }

  lemma FlattenSnoc(w: seq<int>, cs: seq<seq<int>>, k: nat, lo: nat, hi: nat)
    requires 1 <= k <= |cs| && lo <= hi <= |w|
    requires Flatten(cs[..k - 1]) == w[..lo] && cs[k - 1] == w[lo..hi]
    ensures Flatten(cs[..k]) == w[..hi]
  {
    assert cs[..k][..k - 1] == cs[..k - 1];
    assert w[..lo] + w[lo..hi] == w[..hi];
  }

  lemma {:induction false} FlattenPrefix(w: seq<int>, chunkSize: int, k: nat)
    requires chunkSize > 0 && k <= ChunkCount(|w|, chunkSize)
    ensures Flatten(Chunks(w, chunkSize)[..k]) == w[..Min(k * chunkSize, |w|)]
  {
    var cs := Chunks(w, chunkSize);
    if k == 0 {
      assert cs[..0] == [];
    } else {
      FlattenPrefix(w, chunkSize, k - 1);
      ChunkShape(w, chunkSize, k - 1);
      var lo, hi := (k - 1) * chunkSize, Min(k * chunkSize, |w|);
      assert lo + chunkSize == k * chunkSize;
      FlattenSnoc(w, cs, k, lo, hi);
    }
  }

  /** What `data` is: an array (taken as one-dimensional), a text file that `np.loadtxt`
      either fails to read (None) or reads into an array of some dimension, or a path
      given as a `str` together with what reading the file it names would give. */
  datatype WaveformData =
    | Samples(samples: seq<int>)
    | TextFile(loaded: Option<Loaded>)
    | PathName(path: string, loaded: Option<Loaded>)
  datatype Loaded = Loaded(ndim: nat, samples: seq<int>)

  const LoadFailure := "Failed to load DAC waveform. File must contain 1D integer ASCII data (valid for DATA:ARB:DAC)."
  const NotOneDimensional := "Waveform data must be 1D."
  const TupleIndex := "tuple index out of range"

  /** `np.loadtxt` of a file followed by the check that the array is one-dimensional. */
  function LoadText(loaded: Option<Loaded>): (r: Result<seq<int>>)
    ensures r.Ok? <==> loaded.Some? && loaded.value.ndim == 1
    ensures r.Ok? ==> r.value == loaded.value.samples
    ensures r.Err? ==> r.error.ValueError?
  {
    match loaded
    case None => Err(ValueError(LoadFailure))
    case Some(l) => if l.ndim != 1 then Err(ValueError(NotOneDimensional)) else Ok(l.samples)
  }

  /** The loading step as written: a `str` has no `read`, so `np.asarray` makes a
      zero-dimensional array of it and `waveform.shape[0]` raises IndexError. */
  function LoadWaveformAsWritten(data: WaveformData): (r: Result<seq<int>>)
    ensures data.PathName? ==> r == Err(IndexError(TupleIndex))
    ensures !data.PathName? ==> r == LoadWaveform(data)
  {
    match data
    case Samples(w) => Ok(w)
    case TextFile(l) => LoadText(l)
    case PathName(_, _) => Err(IndexError(TupleIndex))
  }

  /** The samples to upload, or the ValueError raised while loading them; a path is
      read like an open file, as the parameter's documentation says it is. */
  function LoadWaveform(data: WaveformData): (r: Result<seq<int>>)
    ensures data.Samples? ==> r == Ok(data.samples)
    ensures !data.Samples? ==> (r.Ok? <==> data.loaded.Some? && data.loaded.value.ndim == 1)
    ensures r.Err? ==> r.error.ValueError?
  {
    match data
    case Samples(w) => Ok(w)
    case TextFile(l) => LoadText(l)
    case PathName(_, l) => LoadText(l)
  }

  /** As written, a path to a readable one-dimensional file never loads, while the
      loader that reads it like an open file yields its samples. */
  lemma PathNameNeverLoads(path: string, w: seq<int>)
    ensures LoadWaveformAsWritten(PathName(path, Some(Loaded(1, w)))).Err?
    ensures LoadWaveformAsWritten(PathName(path, Some(Loaded(1, w)))).error.IndexError?
    ensures LoadWaveform(PathName(path, Some(Loaded(1, w)))) == Ok(w)
    ensures LoadWaveform(PathName(path, Some(Loaded(1, w)))) == LoadWaveform(TextFile(Some(Loaded(1, w))))
  {
  }

  /** The uploads of chunks i.. in order, chunk j under ARB index start + j with up to
      `attempts` attempts each (the loader passes the default ten), stopping at the first
      that fails. */
  datatype Batch = Batch(calls: seq<Call>, rest: seq<Reply>, result: Result<()>)

  /** The message of every chunk, chunk j under ARB index start + j. */
  function ChunkMessages(chunks: seq<seq<int>>, start: int, channel: int): (ms: seq<seq<byte>>)
    ensures |ms| == |chunks|
  {
    seq(|chunks|, j requires 0 <= j < |chunks| => DacMessage(chunks[j], start + j, channel))
  }

  lemma ChunkMessage(chunks: seq<seq<int>>, start: int, channel: int, j: nat)
    requires j < |chunks|
    ensures ChunkMessages(chunks, start, channel)[j] == DacMessage(chunks[j], start + j, channel)
  {
  }

  function UploadChunks(q: seq<Reply>, messages: seq<seq<byte>>, start: int, attempts: int, i: nat): Batch
    requires i <= |messages|
    decreases |messages| - i
  {
    if i == |messages| then Batch([], q, Ok(()))
    else
      var run := RetryUpload(q, messages[i], AttemptCount(attempts), None);
      if !run.success then
        Batch(run.calls, run.rest, Err(RuntimeError(FailureMessage(attempts, run.lastErr))))
      else
        var b := UploadChunks(run.rest, messages, start, attempts, i + 1);
        Batch(run.calls + b.calls, b.rest, b.result)
  }

  /** One chunk of `UploadChunks`: its upload, then the rest of the batch or the failure. */
  lemma UploadChunksStep(q: seq<Reply>, messages: seq<seq<byte>>, start: int, attempts: int, i: nat)
    requires i < |messages|
    ensures var run := RetryUpload(q, messages[i], AttemptCount(attempts), None);
            var b := UploadChunks(q, messages, start, attempts, i);
            (!run.success ==> b == Batch(run.calls, run.rest, Err(RuntimeError(FailureMessage(attempts, run.lastErr)))))
            && (run.success ==> var next := UploadChunks(run.rest, messages, start, attempts, i + 1);
                                b == Batch(run.calls + next.calls, next.rest, next.result))
  {
  }

  /** The blocks passed to `write_raw`, in order. */
  function Blocks(cs: seq<Call>): seq<seq<byte>> {
    if cs == [] then [] else Blocks(cs[..|cs| - 1]) + (if cs[|cs| - 1].WriteRaw? then [cs[|cs| - 1].data] else [])
  }

  lemma {:induction false} BlocksAppend(a: seq<Call>, b: seq<Call>)
    ensures Blocks(a + b) == Blocks(a) + Blocks(b)
    decreases |b|
  {
    if b == [] {
      assert a + b == a;
    } else {
      BlocksAppend(a, b[..|b| - 1]);
      assert (a + b)[..|a + b| - 1] == a + b[..|b| - 1];
    }
  }

  /** Every attempt writes its message once, whichever call raises. */
  lemma TryUploadBlocks(q: seq<Reply>, message: seq<byte>)
    ensures Blocks(TryUpload(q, message).calls) == [message]
  {
    var w, opc, err := WriteRaw(message), Ask("*OPC?"), Ask("SYST:ERR?");
    assert Blocks([w]) == [message] by {
      assert [w][..0] == [];
    }
    assert Blocks([w, opc]) == [message] by {
      assert [w, opc][..1] == [w];
    }
    assert Blocks([w, opc, err]) == [message] by {
      assert [w, opc, err][..2] == [w, opc];
    }
    TryUploadCases(q, message);
  }

  /** The retry loop writes only its own message, and at least once when it succeeds. */
  lemma {:induction false} RetryUploadBlocks(q: seq<Reply>, message: seq<byte>, remaining: nat, lastErr: Option<string>)
    ensures var run := RetryUpload(q, message, remaining, lastErr);
            (forall x :: 0 <= x < |Blocks(run.calls)| ==> Blocks(run.calls)[x] == message)
            && (run.success ==> Blocks(run.calls) != [])
    decreases remaining
  {
    if remaining > 0 {
      var a := TryUpload(q, message);
      var run := RetryUpload(q, message, remaining, lastErr);
      TryUploadBlocks(q, message);
      if a.ok {
        assert run.calls == a.calls;
      } else {
        var r := RetryUpload(a.rest, message, remaining - 1, Some(a.err));
        RetryUploadBlocks(a.rest, message, remaining - 1, Some(a.err));
        BlocksAppend(a.calls, r.calls);
        assert Blocks(run.calls) == [message] + Blocks(r.calls);
      }
    }
  }

  /** `owner[x]` is the chunk whose message block x is: chunks from i on, in order, each
      written one or more times before the next, starting with chunk i. */
  predicate BlocksOwned(w: seq<seq<byte>>, owner: seq<int>, messages: seq<seq<byte>>, i: nat) {
    && |owner| == |w|
    && (forall x :: 0 <= x < |w| ==> i <= owner[x] < |messages| && w[x] == messages[owner[x]])
    && (forall x :: 0 < x < |w| ==> owner[x - 1] <= owner[x] <= owner[x - 1] + 1)
    && (w != [] ==> owner[0] == i)
  }

  /** The blocks `w` are the messages of chunks i.. in order, each written one or more
      times before the next, from chunk i on and, when `complete`, up to the last chunk. */
  ghost predicate InOrder(w: seq<seq<byte>>, messages: seq<seq<byte>>, i: nat, complete: bool) {
    exists owner: seq<int> :: BlocksOwned(w, owner, messages, i)
                              && (complete && i < |messages| ==> w != [] && owner[|w| - 1] == |messages| - 1)
  }

  /** Blocks that all carry chunk i's message are in order from chunk i. */
  lemma InOrderOne(mw: seq<seq<byte>>, messages: seq<seq<byte>>, i: nat)
    requires i < |messages| && forall x :: 0 <= x < |mw| ==> mw[x] == messages[i]
    ensures InOrder(mw, messages, i, i + 1 == |messages| && mw != [])
  {
    var mine: seq<int> := seq(|mw|, _ => i);
    assert BlocksOwned(mw, mine, messages, i);
  }

  /** Chunk i's blocks, at least one, followed by blocks in order from chunk i + 1. */
  lemma InOrderCons(mw: seq<seq<byte>>, nw: seq<seq<byte>>, messages: seq<seq<byte>>, i: nat, complete: bool)
    requires i + 1 < |messages| && mw != [] && forall x :: 0 <= x < |mw| ==> mw[x] == messages[i]
    requires InOrder(nw, messages, i + 1, complete)
    ensures InOrder(mw + nw, messages, i, complete)
  {
    var w := mw + nw;
    var mine: seq<int> := seq(|mw|, _ => i);
    var later: seq<int> :| BlocksOwned(nw, later, messages, i + 1)
                           && (complete ==> nw != [] && later[|nw| - 1] == |messages| - 1);
    var owner := mine + later;
    assert BlocksOwned(w, owner, messages, i) by {
      forall x | 0 < x < |w| ensures owner[x - 1] <= owner[x] <= owner[x - 1] + 1 {
        if x > |mw| {
          assert owner[x - 1] == later[x - 1 - |mw|] && owner[x] == later[x - |mw|];
        }
      }
    }
  }

  /** The blocks written go up chunk by chunk in order from chunk i, chunk j with the
      message for ARB index start + j (`ChunkMessages`); the batch succeeds only when the
      last chunk was written, and otherwise fails with a RuntimeError. */
  lemma {:induction false} UploadChunksInOrder(q: seq<Reply>, messages: seq<seq<byte>>, start: int, attempts: int, i: nat)
    requires i <= |messages|
    ensures var b := UploadChunks(q, messages, start, attempts, i);
            && InOrder(Blocks(b.calls), messages, i, b.result.Ok?)
            && (b.result.Err? ==> b.result.error.RuntimeError?)
    decreases |messages| - i
  {
    if i == |messages| {
      var none: seq<int> := [];
      assert BlocksOwned([], none, messages, i);
    } else {
      var run := RetryUpload(q, messages[i], AttemptCount(attempts), None);
      UploadChunksStep(q, messages, start, attempts, i);
      RetryUploadBlocks(q, messages[i], AttemptCount(attempts), None);
      var mw := Blocks(run.calls);
      InOrderOne(mw, messages, i);
      if run.success {
        var next := UploadChunks(run.rest, messages, start, attempts, i + 1);
        UploadChunksInOrder(run.rest, messages, start, attempts, i + 1);
        BlocksAppend(run.calls, next.calls);
        if i + 1 < |messages| {
          InOrderCons(mw, Blocks(next.calls), messages, i, next.result.Ok?);
        } else {
          assert next.calls == [] && next.result.Ok?;
          assert mw + Blocks(next.calls) == mw;
        }
      }
    }
  }

  /** What is left of the batch from chunk i on, run on the replies still to come,
      completes the trace so far to the whole batch's trace and ends it the same way. */
  predicate Continues(batch: Batch, sent0: seq<Logged>, sent: seq<Logged>, replies: seq<Reply>,
                      messages: seq<seq<byte>>, start: int, attempts: int, i: nat)
  {
    match batch
    case Batch(calls, rest, result) =>
      && i <= |messages|
      && var left := UploadChunks(replies, messages, start, attempts, i);
         && sent0 + Stamp(calls, UploadTimeout) == sent + Stamp(left.calls, UploadTimeout)
         && rest == left.rest && result == left.result
  }

  /** Uploading chunk i keeps `Continues` for chunk i + 1 when it succeeds, and when it
      fails the trace so far is the whole batch's trace, ending in its RuntimeError. */
  lemma ContinuesStep(batch: Batch, sent0: seq<Logged>, sent1: seq<Logged>, sent2: seq<Logged>, q: seq<Reply>, rest: seq<Reply>,
                      messages: seq<seq<byte>>, message: seq<byte>, start: int, attempts: int, i: nat, result: Result<()>)
    requires i < |messages| && Continues(batch, sent0, sent1, q, messages, start, attempts, i)
    requires messages[i] == message
    requires var run := RetryUpload(q, message, AttemptCount(attempts), None);
             && sent2 == sent1 + Stamp(run.calls, UploadTimeout) && rest == run.rest
             && (result.Ok? <==> run.success)
             && (result.Err? ==> result.error == RuntimeError(FailureMessage(attempts, run.lastErr)))
    ensures result.Err? ==> result == batch.result && rest == batch.rest && sent2 == sent0 + Stamp(batch.calls, UploadTimeout)
    ensures result.Ok? ==> Continues(batch, sent0, sent2, rest, messages, start, attempts, i + 1)
  {
    var run := RetryUpload(q, messages[i], AttemptCount(attempts), None);
    var b := UploadChunks(q, messages, start, attempts, i);
    UploadChunksStep(q, messages, start, attempts, i);
    if run.success {
      var next := UploadChunks(run.rest, messages, start, attempts, i + 1);
      TraceStep(sent1, sent2, b.calls, run.calls, next.calls);
    }
  }

  /** One turn of the loop: chunk i goes up.  Before it, what is left of the batch from
      chunk i on completes the trace so far to the whole batch's trace; after it, either
      the batch has ended with this chunk's failure or the same holds from chunk i + 1. */
  method UploadNextChunk(instr: Instrument, chunk: seq<int>, ghost messages: seq<seq<byte>>, start: int, channel: int,
                         attempts: int, i: nat, ghost batch: Batch, ghost sent0: seq<Logged>)
    returns (result: Result<()>)
    requires i < |messages| && messages[i] == DacMessage(chunk, start + i, channel)
    requires Continues(batch, sent0, instr.sent, instr.replies, messages, start, attempts, i)
    modifies instr
    ensures instr.timeout == old(instr.timeout)
    ensures result.Err? ==> result == batch.result && instr.replies == batch.rest
                            && instr.sent == sent0 + Stamp(batch.calls, UploadTimeout)
    ensures result.Ok? ==> Continues(batch, sent0, instr.sent, instr.replies, messages, start, attempts, i + 1)
  {
    ghost var sent1, q := instr.sent, instr.replies;
    result := UploadDacBinary(instr, chunk, start + i, channel, attempts);
    ContinuesStep(batch, sent0, sent1, instr.sent, q, instr.replies, messages, DacMessage(chunk, start + i, channel),
                  start, attempts, i, result);
  }

  /** Loads the waveform, splits it and uploads the chunks one after the other.  A file
      that cannot be read or is not one-dimensional raises ValueError, and a chunk size
      of 0 raises ZeroDivisionError, both before anything is sent.  Loading uses the
      corrected `LoadWaveform`, which reads a path like an open file; as written, a path
      raises IndexError instead (`LoadWaveformAsWritten`). */
  method LoadSplitAndUploadDac(instr: Instrument, data: WaveformData, arbStartIndex: int, channel: int, chunkSize: int)
    returns (r: Result<()>)
    modifies instr
    ensures LoadWaveform(data).Err? ==> r == Err(LoadWaveform(data).error) && instr.sent == old(instr.sent)
    ensures LoadWaveform(data).Ok? && chunkSize == 0 ==> r == Err(ZeroDivisionError) && instr.sent == old(instr.sent)
    ensures LoadWaveform(data).Ok? && chunkSize != 0 ==>
              var b := UploadChunks(old(instr.replies), ChunkMessages(Chunks(LoadWaveform(data).value, chunkSize), arbStartIndex, channel), arbStartIndex, DefaultAttempts, 0);
              instr.sent == old(instr.sent) + Stamp(b.calls, UploadTimeout) && instr.replies == b.rest && r == b.result
    ensures instr.timeout == old(instr.timeout)
  {
    var loaded := LoadWaveform(data);
    if loaded.Err? {
      return Err(loaded.error);
    }
    if chunkSize == 0 {
      return Err(ZeroDivisionError);
    }
    r := UploadSplit(instr, loaded.value, arbStartIndex, channel, chunkSize);
  }

  /** The loop over the chunks of the loaded waveform. */
  method UploadSplit(instr: Instrument, waveform: seq<int>, arbStartIndex: int, channel: int, chunkSize: int)
    returns (r: Result<()>)
    requires chunkSize != 0
    modifies instr
    ensures var b := UploadChunks(old(instr.replies), ChunkMessages(Chunks(waveform, chunkSize), arbStartIndex, channel), arbStartIndex, DefaultAttempts, 0);
            instr.sent == old(instr.sent) + Stamp(b.calls, UploadTimeout) && instr.replies == b.rest && r == b.result
    ensures instr.timeout == old(instr.timeout)
  {
    var numChunks := FloorDiv(|waveform| + chunkSize - 1, chunkSize);
    ghost var messages := ChunkMessages(Chunks(waveform, chunkSize), arbStartIndex, channel);
    assert |messages| == if numChunks < 0 then 0 else numChunks;
    r := UploadEachChunk(instr, waveform, arbStartIndex, channel, chunkSize, numChunks, messages);
  }

  /** `for i in range(num_chunks)`: chunk i goes up under ARB index start + i, and the
      first failure ends the loop. */
  method UploadEachChunk(instr: Instrument, waveform: seq<int>, arbStartIndex: int, channel: int, chunkSize: int,
                         numChunks: int, ghost messages: seq<seq<byte>>)
    returns (r: Result<()>)
    requires chunkSize != 0 && numChunks == FloorDiv(|waveform| + chunkSize - 1, chunkSize)
    requires messages == ChunkMessages(Chunks(waveform, chunkSize), arbStartIndex, channel)
    requires |messages| == if numChunks < 0 then 0 else numChunks
    modifies instr
    ensures var b := UploadChunks(old(instr.replies), messages, arbStartIndex, DefaultAttempts, 0);
            instr.sent == old(instr.sent) + Stamp(b.calls, UploadTimeout) && instr.replies == b.rest && r == b.result
    ensures instr.timeout == old(instr.timeout)
  {
    ghost var batch := UploadChunks(instr.replies, messages, arbStartIndex, DefaultAttempts, 0);
    ghost var sent0 := instr.sent;
    ghost var timeout0 := instr.timeout;
    var i := 0;
    while i < numChunks
      invariant 0 <= i <= |messages|
      invariant instr.timeout == timeout0
      invariant Continues(batch, sent0, instr.sent, instr.replies, messages, arbStartIndex, DefaultAttempts, i)
      decreases numChunks - i
    {
      var chunk := ChunkAt(waveform, chunkSize, i);
      ChunkMessageAt(waveform, chunkSize, arbStartIndex, channel, i);
      var result := UploadNextChunk(instr, chunk, messages, arbStartIndex, channel, DefaultAttempts, i, batch, sent0);
      if result.Err? {
        return result;
      }
      i := i + 1;
      assert Continues(batch, sent0, instr.sent, instr.replies, messages, arbStartIndex, DefaultAttempts, i);
    }
    assert UploadChunks(instr.replies, messages, arbStartIndex, DefaultAttempts, i) == Batch([], instr.replies, Ok(()));
    r := Ok(());
  }

  /** The message of chunk i is that of `waveform[i * chunk_size : (i + 1) * chunk_size]`
      under ARB index start + i. */
  lemma ChunkMessageAt(w: seq<int>, chunkSize: int, start: int, channel: int, i: nat)
    requires chunkSize != 0 && i < ChunkCount(|w|, chunkSize)
    ensures var ms := ChunkMessages(Chunks(w, chunkSize), start, channel);
            i < |ms| && ms[i] == DacMessage(ChunkAt(w, chunkSize, i), start + i, channel)
  {
    ChunkMessage(Chunks(w, chunkSize), start, channel, i);
  }

  // ---------------------------------------------------------------------------
  // A33LoadARB
  // ---------------------------------------------------------------------------

  /** Loads the stored file `INT:\332XX_ARBS\ARBF<n>.ARB` into the channel and asks for completion. */
  function LoadArbCommand(channel: int, arbNumber: int): string {
    ":MMEM:LOAD:DATA" + Ch(channel) + " \"INT:\\332XX_ARBS\\ARBF" + IntToString(arbNumber) + ".ARB\";*OPC?"
  }

  /** Writes the load command at the current timeout, then reads the `*OPC?` answer with
      the timeout at 60000 ms and restores the old timeout.  If the read raises, the
      exception propagates and the timeout is left at 60000 ms. */
  method LoadArb(instr: Instrument, channel: int, arbNumber: int) returns (r: Result<string>)
    requires IsChannel(channel)
    modifies instr
    ensures var q, t := old(instr.replies), old(instr.timeout);
            var cmd := LoadArbCommand(channel, arbNumber);
            (Next(q).Raise? ==> r == Err(VisaIOError(Next(q).message))
                                && instr.sent == old(instr.sent) + [Logged(Write(cmd), t)]
                                && instr.timeout == t && instr.replies == Rest(q))
            && (Next(q).Answer? ==> instr.sent == old(instr.sent) + [Logged(Write(cmd), t), Logged(Read, UploadTimeout)]
                                    && instr.replies == Rest(Rest(q)))
            && (Next(q).Answer? && Next(Rest(q)).Raise? ==> r == Err(VisaIOError(Next(Rest(q)).message))
                                                            && instr.timeout == UploadTimeout)
            && (Next(q).Answer? && Next(Rest(q)).Answer? ==> r == Ok(Next(Rest(q)).text) && instr.timeout == t)
  {
    var oldTimeout := instr.timeout;
    var reply := instr.Perform(Write(LoadArbCommand(channel, arbNumber)));
    if reply.Raise? {
      return Err(VisaIOError(reply.message));
    }
    instr.SetTimeout(UploadTimeout);
    reply := instr.Perform(Read);
    if reply.Raise? {
      return Err(VisaIOError(reply.message));
    }
    instr.SetTimeout(oldTimeout);
    r := Ok(reply.text);
  }
}
