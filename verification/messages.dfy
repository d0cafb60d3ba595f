/**
  The messages of the usbmuxd client protocol (src/usbmuxd-proto.h): a 16-byte header in host
  byte order, here little-endian, followed by a payload that this model does not look into.
 */
module Messages {
  import opened Words

  const HEADER_SIZE: nat := 16

  function Le16(n: u16): (s: seq<byte>)
    ensures |s| == 2
  {
    [n % 0x100, n / 0x100]
  }

  function UnLe16(s: seq<byte>): u16
    requires |s| >= 2
  {
    s[0] as int + 0x100 * s[1] as int
  }

  function Le32(n: u32): (s: seq<byte>)
    ensures |s| == 4
  {
    Le16(n % 0x1_0000) + Le16(n / 0x1_0000)
  }

  function UnLe32(s: seq<byte>): u32
    requires |s| >= 4
  {
    UnLe16(s) + 0x1_0000 * UnLe16(s[2..])
  }

  lemma Le16RoundTrip(n: u16, rest: seq<byte>)
    ensures UnLe16(Le16(n) + rest) == n
  {
  }

  lemma Le32RoundTrip(n: u32, rest: seq<byte>)
    ensures UnLe32(Le32(n) + rest) == n
  {
    hide Le16, UnLe16;
    var lo, hi := n % 0x1_0000, n / 0x1_0000;
    assert Le32(n) + rest == Le16(lo) + (Le16(hi) + rest);
    Le16RoundTrip(lo, Le16(hi) + rest);
    assert (Le32(n) + rest)[2..] == Le16(hi) + rest;
    Le16RoundTrip(hi, rest);
  }

  datatype Message = Message(version: u32, kind: u32, tag: u32, payload: seq<byte>)

  /** Messages whose length fits the length field. */
  ghost predicate Sized(m: Message) {
    HEADER_SIZE + |m.payload| < U32
  }

  /** What `output_buffer_add_message` appends; the length field is a 32-bit sum. */
  function Encode(m: Message): (s: seq<byte>)
    ensures |s| == HEADER_SIZE + |m.payload|
  {
    Le32((HEADER_SIZE + |m.payload|) % U32) + Le32(m.version) + Le32(m.kind) + Le32(m.tag) + m.payload
  }

  function EncodeAll(ms: seq<Message>): seq<byte> {
    if ms == [] then [] else EncodeAll(ms[..|ms| - 1]) + Encode(ms[|ms| - 1])
  }

  function Decode(s: seq<byte>): Message
    requires |s| >= HEADER_SIZE
  {
    Message(UnLe32(s[4..]), UnLe32(s[8..]), UnLe32(s[12..]), s[HEADER_SIZE..])
  }

  /** A message can be found at the front of any stream and read back from it. */
  lemma DecodeEncode(m: Message, rest: seq<byte>)
    requires Sized(m)
    ensures UnLe32(Encode(m) + rest) == |Encode(m)|
    ensures Decode(Encode(m)) == m
  {
    hide Le32, UnLe32;
    var e := Encode(m);
    var t3 := Le32(m.tag) + m.payload;
    var t2 := Le32(m.kind) + t3;
    var t1 := Le32(m.version) + t2;
    assert e == Le32(|e|) + t1;
    assert e + rest == Le32(|e|) + (t1 + rest);
    Le32RoundTrip(|e|, t1 + rest);
    assert e[4..] == t1 && e[8..] == t2 && e[12..] == t3 && e[HEADER_SIZE..] == m.payload;
    Le32RoundTrip(m.version, t2);
    Le32RoundTrip(m.kind, t3);
    Le32RoundTrip(m.tag, m.payload);
  }

  /** The first message of a stream can be taken off. */
  predicate Readable(s: seq<byte>) {
    |s| >= HEADER_SIZE && HEADER_SIZE <= UnLe32(s) <= |s|
  }

  /** How a peer reads a stream: `n` messages, as far as they have arrived, and the bytes behind them. */
  function ReadOff(s: seq<byte>, n: nat): (seq<Message>, seq<byte>) {
    if n == 0 || !Readable(s) then ([], s) else
    var (ms, rest) := ReadOff(s[UnLe32(s)..], n - 1);
    ([Decode(s[..UnLe32(s)])] + ms, rest)
  }

  ghost predicate AllSized(ms: seq<Message>) {
    forall i :: 0 <= i < |ms| ==> Sized(ms[i])
  }

  lemma {:induction false} EncodeAllFront(ms: seq<Message>)
    requires ms != []
    ensures EncodeAll(ms) == Encode(ms[0]) + EncodeAll(ms[1..])
  {
    hide Encode;
    var n := |ms| - 1;
    if n == 0 {
      assert ms[..0] == [] && ms[1..] == [];
      assert Encode(ms[0]) + [] == Encode(ms[0]) == [] + Encode(ms[0]);
    } else {
      var init, last := ms[..n], ms[n];
      EncodeAllFront(init);
      assert init[1..] == ms[1..][..n - 1] && ms[1..][n - 1] == last && init[0] == ms[0];
      assert EncodeAll(ms[1..]) == EncodeAll(init[1..]) + Encode(last);
      assert EncodeAll(ms) == (Encode(ms[0]) + EncodeAll(init[1..])) + Encode(last);
    }
  }

  lemma ReadOffFirst(m: Message, tail: seq<byte>, n: nat)
    requires Sized(m) && n > 0
    ensures ReadOff(Encode(m) + tail, n) == ([m] + ReadOff(tail, n - 1).0, ReadOff(tail, n - 1).1)
  {
    var e, s := Encode(m), Encode(m) + tail;
    DecodeEncode(m, tail);
    hide Encode, Decode, UnLe32;
    assert s[..|e|] == e && s[|e|..] == tail;
  }

  /** Reading off the encoded messages gives them back and leaves exactly what was behind them. */
  lemma {:induction false} ReadOffAll(ms: seq<Message>, rest: seq<byte>)
    requires AllSized(ms)
    ensures ReadOff(EncodeAll(ms) + rest, |ms|) == (ms, rest)
  {
    hide Encode, Decode, UnLe32;
    if ms == [] {
      assert EncodeAll(ms) + rest == rest;
    } else {
      var tail := EncodeAll(ms[1..]) + rest;
      EncodeAllFront(ms);
      assert EncodeAll(ms) + rest == Encode(ms[0]) + tail;
      ReadOffFirst(ms[0], tail, |ms|);
      ReadOffAll(ms[1..], rest);
      assert [ms[0]] + ms[1..] == ms;
    }
  }

  /** Reading off what has arrived of the encoded messages. */
  ghost predicate ReadSoFar(ms: seq<Message>, s: seq<byte>, got: seq<Message>, rest: seq<byte>) {
    && got <= ms && s == EncodeAll(got) + rest
    && (|got| < |ms| ==> |rest| < |Encode(ms[|got|])|)
    && (|got| == |ms| ==> rest == [])
  }

  lemma {:induction false} ReadOffPrefix(ms: seq<Message>, s: seq<byte>)
    requires AllSized(ms) && s <= EncodeAll(ms)
    ensures var (got, rest) := ReadOff(s, |ms|); ReadSoFar(ms, s, got, rest)
  {
    hide Encode, Decode, UnLe32, ReadSoFar, EncodeAll;
    if ms == [] {
      NoMessages(s);
    } else {
      var e, tail := Encode(ms[0]), EncodeAll(ms[1..]);
      EncodeAllFront(ms);
      if |s| < |e| {
        assert s == e[..|s|];
        NotYetReadable(ms[0], s);
        NothingRead(ms, s);
      } else {
        var s' := s[|e|..];
        PrefixBehind(e, tail, s);
        ReadOffFirst(ms[0], s', |ms|);
        ReadOffPrefix(ms[1..], s');
        var (got, rest) := ReadOff(s', |ms| - 1);
        ReadOneMore(ms, s', got, rest);
      }
    }
  }

  lemma PrefixBehind(e: seq<byte>, tail: seq<byte>, s: seq<byte>)
    requires s <= e + tail && |e| <= |s|
    ensures s == e + s[|e|..] && s[|e|..] <= tail
  {
    assert s == (e + tail)[..|s|];
  }

  lemma NoMessages(s: seq<byte>)
    requires s <= EncodeAll([])
    ensures ReadSoFar([], s, [], s)
  {
  }

  lemma NothingRead(ms: seq<Message>, s: seq<byte>)
    requires ms != [] && |s| < |Encode(ms[0])|
    ensures ReadSoFar(ms, s, [], s)
  {
    assert EncodeAll([]) + s == s;
  }

  lemma ReadOneMore(ms: seq<Message>, s: seq<byte>, got: seq<Message>, rest: seq<byte>)
    requires ms != [] && ReadSoFar(ms[1..], s, got, rest)
    ensures ReadSoFar(ms, Encode(ms[0]) + s, [ms[0]] + got, rest)
  {
    hide Encode, EncodeAll;
    var all := [ms[0]] + got;
    EncodeAllFront(all);
    assert all[1..] == got;
    assert Encode(ms[0]) + (EncodeAll(got) + rest) == EncodeAll(all) + rest;
    assert ms == [ms[0]] + ms[1..];
  }

  lemma NotYetReadable(m: Message, s: seq<byte>)
    requires Sized(m) && |s| < |Encode(m)| && s == Encode(m)[..|s|]
    ensures !Readable(s)
  {
    DecodeEncode(m, []);
    assert Encode(m) + [] == Encode(m);
    if |s| >= HEADER_SIZE {
      assert s[2..][0] == Encode(m)[2..][0] && s[2..][1] == Encode(m)[2..][1];
    }
  }
}
