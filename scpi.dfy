/** SCPI command text and IEEE 488.2 binary blocks, as the two drivers build them.

    A command is assembled from pieces: the 33600A driver appends literal clauses to
    one string (`cmd += ...`), the SDG6022X driver appends `KEY,value` parts to a list
    and joins them with commas.  Each piece carries the SCPI mnemonic it sets, so that
    properties can be stated as "which mnemonics a command contains". */
module Scpi {
  import opened Python

  newtype byte = x: int | 0 <= x < 256

  /** One appended piece: the mnemonic it sets and the exact text appended. */
  datatype Piece = Piece(key: string, text: string)

  predicate HasKey(ps: seq<Piece>, k: string) {
    exists i :: 0 <= i < |ps| && ps[i].key == k
  }

  lemma HasKeySmall(ps: seq<Piece>, k: string)
    requires |ps| <= 1
    ensures HasKey(ps, k) <==> ps != [] && ps[0].key == k
  {
  }

  lemma HasKeyAppend(a: seq<Piece>, b: seq<Piece>, k: string)
    ensures HasKey(a + b, k) <==> HasKey(a, k) || HasKey(b, k)
  {
    if HasKey(a + b, k) {
      var i :| 0 <= i < |a + b| && (a + b)[i].key == k;
      if i >= |a| {
        assert b[i - |a|].key == k;
      }
    }
    if HasKey(a, k) {
      var i :| 0 <= i < |a| && a[i].key == k;
      assert (a + b)[i].key == k;
    }
    if HasKey(b, k) {
      var i :| 0 <= i < |b| && b[i].key == k;
      assert (a + b)[|a| + i].key == k;
    }
  }

  function Keys(ps: seq<Piece>): (ks: seq<string>)
    ensures |ks| == |ps| && forall i :: 0 <= i < |ps| ==> ks[i] == ps[i].key
  {
    seq(|ps|, i requires 0 <= i < |ps| => ps[i].key)
  }

  /** `cmd += p.text` for every piece, in order. */
  function Concat(ps: seq<Piece>): string {
    if ps == [] then "" else Concat(ps[..|ps| - 1]) + ps[|ps| - 1].text
  }

  /** `",".join(p.text for p in ps)` */
  function JoinComma(ps: seq<Piece>): string {
    if ps == [] then ""
    else if |ps| == 1 then ps[0].text
    else JoinComma(ps[..|ps| - 1]) + "," + ps[|ps| - 1].text
  }

  lemma {:induction false} ConcatSnoc(ps: seq<Piece>, p: Piece)
    ensures Concat(ps + [p]) == Concat(ps) + p.text
  {
    assert (ps + [p])[..|ps|] == ps;
  }

  /** The last piece appended is the end of the command. */
  lemma ConcatEndsWithLast(ps: seq<Piece>)
    requires ps != []
    ensures EndsWith(Concat(ps), ps[|ps| - 1].text)
  {
    var c := Concat(ps);
    assert c == Concat(ps[..|ps| - 1]) + ps[|ps| - 1].text;
  }

  // ---------------------------------------------------------------------------
  // Bytes
  // ---------------------------------------------------------------------------

  /** `s.encode("ascii")`: one byte per character, its code.  Only meaningful for ASCII
      text (`IsAscii`); callers that may meet other text check that first, as Python
      raises UnicodeEncodeError there. */
  function Ascii(s: string): (b: seq<byte>)
    ensures |b| == |s|
  {
    seq(|s|, i requires 0 <= i < |s| => (s[i] as int % 256) as byte)
  }

  /** `b.decode("latin-1")`: each byte read back as the character with its code. */
  function Chars(b: seq<byte>): (s: string)
    ensures |s| == |b| && forall i :: 0 <= i < |b| ==> s[i] as int == b[i] as int
  {
    seq(|b|, i requires 0 <= i < |b| => b[i] as int as char)
  }

  lemma CharsAscii(s: string)
    requires IsAscii(s)
    ensures Chars(Ascii(s)) == s
  {
  }

  lemma AsciiAppend(a: string, b: string)
    requires IsAscii(a) && IsAscii(b)
    ensures IsAscii(a + b)
  {
    forall i | 0 <= i < |a + b| ensures (a + b)[i] < 128 as char {
      if i >= |a| {
        assert (a + b)[i] == b[i - |a|];
      }
    }
  }

  lemma IntToStringAscii(i: int)
    ensures IsAscii(IntToString(i))
  {
  }

  // ---------------------------------------------------------------------------
  // IEEE 488.2 definite-length arbitrary block (section 7.7.6 of IEEE 488.2)
  // ---------------------------------------------------------------------------

  /** `f"#{len(str(n))}{n}"`: '#', the number of digits of the byte count, the byte count. */
  function BlockHeader(n: nat): (h: string)
    ensures |h| >= 3 && h[0] == '#'
  {
    "#" + NatToString(|NatToString(n)|) + NatToString(n)
  }

  /** The digit-count field is one character exactly when the count has at most nine
      digits, the range in which the header is a valid definite-length block header. */
  lemma BlockHeaderSingleDigit(n: nat)
    ensures |NatToString(|NatToString(n)|)| == 1 <==> n < Pow10(9)
  {
    NatToStringLength(n, 9);
    NatToStringLength(|NatToString(n)|, 1);
  }

  /** How a receiver reads a definite-length block: '#', one non-zero digit d, d digits
      giving the byte count n, then n bytes of payload.  Returns the payload and what follows. */
  function ParseBlock(m: seq<byte>): Option<(seq<byte>, seq<byte>)> {
    var c := Chars(m);
    if |c| < 2 || c[0] != '#' || !('1' <= c[1] <= '9') then None
    else
      var d := DigitValue(c[1]);
      if |c| < 2 + d || !AllDigits(c[2..2 + d]) then None
      else
        var n := ParseNat(c[2..2 + d]);
        if |m| < 2 + d + n then None
        else Some((m[2 + d..2 + d + n], m[2 + d + n..]))
  }

  /** ASCII text at the front of a byte string reads back as that text. */
  lemma CharsAsciiPrefix(h: string, rest: seq<byte>)
    requires IsAscii(h)
    ensures |Chars(Ascii(h) + rest)| == |h| + |rest| && Chars(Ascii(h) + rest)[..|h|] == h
  {
    var m := Ascii(h) + rest;
    var c := Chars(m);
    forall i | 0 <= i < |h| ensures c[i] == h[i] {
      assert m[i] == Ascii(h)[i];
    }
  }

  /** The header of a count below 10**9: '#', the digit count d as one digit, d digits. */
  lemma BlockHeaderShape(n: nat)
    requires n < Pow10(9)
    ensures var h, d := BlockHeader(n), |NatToString(n)|;
            1 <= d <= 9 && |h| == 2 + d && h[0] == '#' && IsDigit(h[1]) && DigitValue(h[1]) == d
            && h[2..] == NatToString(n) && IsAscii(h)
  {
    var d := |NatToString(n)|;
    BlockHeaderSingleDigit(n);
    NatToStringLength(n, 9);
    assert NatToString(d) == [DigitChar(d)];
  }

  lemma SplitAt(a: seq<byte>, b: seq<byte>)
    ensures (a + b)[..|a|] == a && (a + b)[|a|..] == b
  {
  }

  lemma AppendEmpty(a: seq<byte>)
    ensures a + [] == a
  {
  }

  /** Framing a payload of fewer than 10**9 bytes and reading it back recovers the
      payload and leaves what followed untouched. */
  lemma {:induction false} BlockRoundTrip(payload: seq<byte>, tail: seq<byte>)
    requires |payload| < Pow10(9)
    ensures ParseBlock(Ascii(BlockHeader(|payload|)) + payload + tail) == Some((payload, tail))
  {
    var n := |payload|;
    var h := BlockHeader(n);
    var d := |NatToString(n)|;
    BlockHeaderShape(n);
    var m := Ascii(h) + payload + tail;
    assert m == Ascii(h) + (payload + tail);
    CharsAsciiPrefix(h, payload + tail);
    var c := Chars(m);
    assert c[0] == h[0] && c[1] == h[1];
    assert c[2..2 + d] == h[2..] by {
      assert c[..|h|] == h;
      assert c[2..2 + d] == c[..|h|][2..];
    }
    ParseNatToString(n);
    assert m[2 + d..2 + d + n] == payload;
    assert m[2 + d + n..] == tail;
  }

  // ---------------------------------------------------------------------------
  // Sample payloads
  // ---------------------------------------------------------------------------

  /** `np.int16(x)`: two's-complement wrap-around into [-32768, 32767]. */
  function Wrap16(x: int): (y: int)
    ensures -32768 <= y < 32768
    ensures -32768 <= x < 32768 ==> y == x
  {
    (x + 32768) % 65536 - 32768
  }

  /** The two bytes of one int16 sample, least significant first (the byte order
      `FORM:BORD SWAP` announces, and the host order `tobytes()` produces on a
      little-endian host). */
  function Int16Bytes(x: int): seq<byte> {
    var u := Wrap16(x) % 65536;
    [(u % 256) as byte, (u / 256) as byte]
  }

  /** `np.asarray(w, dtype=np.int16).tobytes()` */
  function Int16Payload(w: seq<int>): (p: seq<byte>)
    ensures |p| == 2 * |w| && |p| % 2 == 0
  {
    if w == [] then [] else Int16Payload(w[..|w| - 1]) + Int16Bytes(w[|w| - 1])
  }

  function DecodeInt16(lo: byte, hi: byte): int {
    var u := hi as int * 256 + lo as int;
    if u >= 32768 then u - 65536 else u
  }

  /** How the instrument reads an int16 little-endian payload back into samples. */
  function DecodeInt16Payload(p: seq<byte>): (w: seq<int>)
    requires |p| % 2 == 0
    ensures |w| == |p| / 2
  {
    if p == [] then [] else DecodeInt16Payload(p[..|p| - 2]) + [DecodeInt16(p[|p| - 2], p[|p| - 1])]
  }

  function Wrapped16(w: seq<int>): (v: seq<int>)
    ensures |v| == |w| && forall i :: 0 <= i < |w| ==> v[i] == Wrap16(w[i])
  {
    seq(|w|, i requires 0 <= i < |w| => Wrap16(w[i]))
  }

  /** The two bytes of one sample decode to the sample after the int16 cast. */
  lemma Int16BytesRoundTrip(x: int)
    ensures var b := Int16Bytes(x); DecodeInt16(b[0], b[1]) == Wrap16(x)
  {
    var y := Wrap16(x);
    var u := y % 65536;
    assert u == if y < 0 then y + 65536 else y;
    assert (u / 256) * 256 + u % 256 == u;
  }

  /** Decoding the payload gives back every sample after the int16 cast; samples
      already in range come back unchanged. */
  lemma {:induction false} Int16PayloadRoundTrip(w: seq<int>)
    ensures DecodeInt16Payload(Int16Payload(w)) == Wrapped16(w)
  {
    if w != [] {
      var init, x := w[..|w| - 1], w[|w| - 1];
      Int16PayloadRoundTrip(init);
      DecodeInt16Snoc(Int16Payload(init), Int16Bytes(x));
      Int16BytesRoundTrip(x);
      Wrapped16Snoc(init, x);
      assert w == init + [x];
    }
  }

  lemma Wrapped16Snoc(w: seq<int>, x: int)
    ensures Wrapped16(w + [x]) == Wrapped16(w) + [Wrap16(x)]
  {
  }

  lemma DecodeInt16Snoc(p: seq<byte>, b: seq<byte>)
    requires |p| % 2 == 0 && |b| == 2
    ensures DecodeInt16Payload(p + b) == DecodeInt16Payload(p) + [DecodeInt16(b[0], b[1])]
  {
    var q := p + b;
    assert q[..|q| - 2] == p;
  }

  /** Four bytes of one float32 sample; the IEEE 754 encoding itself is not modelled. */
  type Float32Bytes = b: seq<byte> | |b| == 4 witness [0, 0, 0, 0]

  /** `np.asarray(w, dtype=np.float32).tobytes()`, with the per-sample encoding given. */
  function Float32Payload(enc: real -> Float32Bytes, w: seq<real>): (p: seq<byte>)
    ensures |p| == 4 * |w|
    ensures forall i :: 0 <= i < |w| ==> p[4 * i..4 * i + 4] == enc(w[i])
  {
    if w == [] then []
    else
      var init := Float32Payload(enc, w[..|w| - 1]);
      var p := init + enc(w[|w| - 1]);
      assert forall i :: 0 <= i < |w| - 1 ==> p[4 * i..4 * i + 4] == init[4 * i..4 * i + 4];
      p
  }
}
