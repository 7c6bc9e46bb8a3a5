/** The VISA resource both drivers talk through (`self.instr.instr` in the source),
    reduced to what the drivers observe: every call is appended to a trace together
    with the timeout in force when it was made, and each call takes the next scripted
    reply, which is either an answer or an exception.  An exhausted script behaves as
    a VISA timeout. */
module Visa {
  import opened Python
  import opened Scpi

  datatype Call =
    | Write(text: string)          // write(text): pylablib appends the terminator
    | WriteRaw(data: seq<byte>)    // write_raw(bytes)
    | Ask(query: string)           // ask(query): write, then read the answer
    | Read                         // read()
    | Clear                        // clear()

  datatype Logged = Logged(call: Call, timeout: int)

  datatype Reply = Answer(text: string) | Raise(message: string)

  const TimeoutMessage := "VI_ERROR_TMO (-1073807339): Timeout expired before operation completed."

  function Next(q: seq<Reply>): Reply {
    if q == [] then Raise(TimeoutMessage) else q[0]
  }

  function Rest(q: seq<Reply>): seq<Reply> {
    if q == [] then [] else q[1..]
  }

  /** The trace entries of `calls` made while the timeout was `t`. */
  function Stamp(calls: seq<Call>, t: int): seq<Logged> {
    if calls == [] then [] else Stamp(calls[..|calls| - 1], t) + [Logged(calls[|calls| - 1], t)]
  }

  lemma {:induction false} StampAppend(a: seq<Call>, b: seq<Call>, t: int)
    ensures Stamp(a + b, t) == Stamp(a, t) + Stamp(b, t)
    decreases |b|
  {
    if b == [] {
      assert a + b == a;
    } else {
      StampAppend(a, b[..|b| - 1], t);
      assert (a + b)[..|a + b| - 1] == a + b[..|b| - 1];
    }
  }

  lemma StampShort(x: Call, y: Call, z: Call, t: int)
    ensures Stamp([x], t) == [Logged(x, t)]
    ensures Stamp([x, y], t) == [Logged(x, t), Logged(y, t)]
    ensures Stamp([x, y, z], t) == [Logged(x, t), Logged(y, t), Logged(z, t)]
  {
    assert [x][..0] == [];
    assert [x, y][..1] == [x];
    assert [x, y, z][..2] == [x, y];
  }

  lemma AppendAssoc<T>(x: seq<T>, y: seq<T>, z: seq<T>)
    ensures x + (y + z) == (x + y) + z
  {
  }

  /** Calls made in order, each taking the next reply, until one raises: the calls made,
      the replies left, and the exception text or the last answer. */
  datatype Outcome = Outcome(made: seq<Call>, rest: seq<Reply>, raised: bool, text: string)

  function TryCalls(q: seq<Reply>, calls: seq<Call>): Outcome
    requires calls != []
    decreases |calls|
  {
    match Next(q)
    case Raise(e) => Outcome([calls[0]], Rest(q), true, e)
    case Answer(t) =>
      if |calls| == 1 then Outcome(calls, Rest(q), false, t)
      else
        var o := TryCalls(Rest(q), calls[1..]);
        Outcome([calls[0]] + o.made, o.rest, o.raised, o.text)
  }

  /** The calls made are a non-empty prefix of those asked for; when none raised all of
      them were made, and stopping short means one raised. */
  lemma {:induction false} TryCallsPrefix(q: seq<Reply>, calls: seq<Call>)
    requires calls != []
    ensures var o := TryCalls(q, calls);
            && 1 <= |o.made| <= |calls| && o.made == calls[..|o.made|]
            && (!o.raised ==> o.made == calls) && (|o.made| < |calls| ==> o.raised)
            && (!o.raised ==> |o.rest| == if |q| >= |calls| then |q| - |calls| else 0)
    decreases |calls|
  {
    var o := TryCalls(q, calls);
    if Next(q).Answer? && |calls| > 1 {
      TryCallsPrefix(Rest(q), calls[1..]);
      var o1 := TryCalls(Rest(q), calls[1..]);
      assert calls[..|o.made|] == [calls[0]] + calls[1..][..|o1.made|];
    }
  }

  /** Calls in two runs: when the first run raises the second is never started, and
      otherwise the second run takes the replies the first one left. */
  lemma {:induction false} TryCallsAppend(q: seq<Reply>, a: seq<Call>, b: seq<Call>)
    requires a != []
    ensures var o := TryCalls(q, a);
            (o.raised ==> TryCalls(q, a + b) == o)
            && (!o.raised && b != [] ==>
                  var o2 := TryCalls(o.rest, b);
                  TryCalls(q, a + b) == Outcome(a + o2.made, o2.rest, o2.raised, o2.text))
    decreases |a|
  {
    var ab := a + b;
    if b == [] {
      assert ab == a;
    } else {
      assert ab[0] == a[0];
      if Next(q).Answer? && |a| > 1 {
        assert ab[1..] == a[1..] + b;
        TryCallsAppend(Rest(q), a[1..], b);
        var o1 := TryCalls(Rest(q), a[1..]);
        var r1 := TryCalls(Rest(q), ab[1..]);
        assert TryCalls(q, ab) == Outcome([a[0]] + r1.made, r1.rest, r1.raised, r1.text);
        assert TryCalls(q, a) == Outcome([a[0]] + o1.made, o1.rest, o1.raised, o1.text);
        if !o1.raised {
          var o2 := TryCalls(o1.rest, b);
          AppendAssoc([a[0]], a[1..], o2.made);
          assert [a[0]] + a[1..] == a;
        }
      } else if Next(q).Answer? {
        assert ab[1..] == b;
      }
    }
  }

  /** Once a prefix of the calls raises, the calls after it are never made. */
  lemma TryCallsRaisedPrefix(q: seq<Reply>, calls: seq<Call>, n: nat)
    requires 0 < n <= |calls| && TryCalls(q, calls[..n]).raised
    ensures TryCalls(q, calls) == TryCalls(q, calls[..n])
  {
    assert calls == calls[..n] + calls[n..];
    TryCallsAppend(q, calls[..n], calls[n..]);
  }

  /** TryCalls on one, two and three calls, reply by reply. */
  lemma TryCallsShort(q: seq<Reply>, x: Call, y: Call, z: Call)
    ensures var r1, r2, r3 := Next(q), Next(Rest(q)), Next(Rest(Rest(q)));
            var q1, q2, q3 := Rest(q), Rest(Rest(q)), Rest(Rest(Rest(q)));
            && (r1.Raise? ==> TryCalls(q, [x]) == Outcome([x], q1, true, r1.message)
                              && TryCalls(q, [x, y]) == Outcome([x], q1, true, r1.message)
                              && TryCalls(q, [x, y, z]) == Outcome([x], q1, true, r1.message))
            && (r1.Answer? ==> TryCalls(q, [x]) == Outcome([x], q1, false, r1.text))
            && (r1.Answer? && r2.Raise? ==> TryCalls(q, [x, y]) == Outcome([x, y], q2, true, r2.message)
                                            && TryCalls(q, [x, y, z]) == Outcome([x, y], q2, true, r2.message))
            && (r1.Answer? && r2.Answer? ==> TryCalls(q, [x, y]) == Outcome([x, y], q2, false, r2.text))
            && (r1.Answer? && r2.Answer? && r3.Raise? ==>
                  TryCalls(q, [x, y, z]) == Outcome([x, y, z], q3, true, r3.message))
            && (r1.Answer? && r2.Answer? && r3.Answer? ==>
                  TryCalls(q, [x, y, z]) == Outcome([x, y, z], q3, false, r3.text))
  {
    assert [x, y][1..] == [y];
    assert [x, y, z][1..] == [y, z];
    assert [y, z][1..] == [z];
    var a := TryCalls(Rest(Rest(q)), [z]);
    var b := TryCalls(Rest(q), [y, z]);
    var c := TryCalls(Rest(q), [y]);
  }

  /** One more call after a run that did not raise takes the next reply left. */
  lemma TryCallsSnoc(q: seq<Reply>, done: seq<Call>, c: Call)
    requires done != [] ==> !TryCalls(q, done).raised
    ensures var before := if done == [] then Outcome([], q, false, "") else TryCalls(q, done);
            var r := Next(before.rest);
            TryCalls(q, done + [c]) == Outcome(before.made + [c], Rest(before.rest), r.Raise?,
                                              if r.Raise? then r.message else r.text)
  {
    if done == [] {
      assert done + [c] == [c];
    } else {
      TryCallsAppend(q, done, [c]);
      TryCallsPrefix(q, done);
      var o2 := TryCalls(TryCalls(q, done).rest, [c]);
    }
  }

  lemma StampSnoc(calls: seq<Call>, c: Call, t: int)
    ensures Stamp(calls + [c], t) == Stamp(calls, t) + [Logged(c, t)]
  {
    assert (calls + [c])[..|calls|] == calls;
  }

  class Instrument {
    var sent: seq<Logged>
    var timeout: int
    var replies: seq<Reply>

    constructor (timeout0: int, script: seq<Reply>)
      ensures sent == [] && timeout == timeout0 && replies == script
    {
      sent, timeout, replies := [], timeout0, script;
    }

    /** Makes one call: logs it and consumes the next scripted reply. */
    method Perform(c: Call) returns (r: Reply)
      modifies this
      ensures sent == old(sent) + [Logged(c, old(timeout))]
      ensures timeout == old(timeout)
      ensures r == Next(old(replies)) && replies == Rest(old(replies))
    {
      sent := sent + [Logged(c, timeout)];
      r := Next(replies);
      replies := Rest(replies);
    }

    /** The next call of a run that stops at the first exception: before it, the calls
        `done` were made from the replies `q` without raising; after it, the trace and
        the replies are those of `done + [c]`, and the reply is the run's last one. */
    method Step(ghost q: seq<Reply>, ghost before: seq<Logged>, ghost done: seq<Call>, c: Call) returns (reply: Reply)
      modifies this
      requires done == [] ==> sent == before && replies == q
      requires done != [] ==> var o := TryCalls(q, done);
                              !o.raised && sent == before + Stamp(o.made, timeout) && replies == o.rest
      ensures timeout == old(timeout)
      ensures var o := TryCalls(q, done + [c]);
              && sent == before + Stamp(o.made, timeout) && replies == o.rest
              && reply == (if o.raised then Raise(o.text) else Answer(o.text))
    {
      ghost var made := if done == [] then [] else TryCalls(q, done).made;
      TryCallsSnoc(q, done, c);
      StampSnoc(made, c, timeout);
      reply := Perform(c);
    }

    /** `visa_instr.timeout = t` */
    method SetTimeout(t: int)
      modifies this
      ensures timeout == t && sent == old(sent) && replies == old(replies)
    {
      timeout := t;
    }
  }
}
