/**
  How a client's commands are read from its socket (`input_buffer_process`, src/client.c): the
  header first, then the rest of the message, in whatever portions the socket yields them.
 */
module ClientInput {
  import opened Words
  import opened Messages

  const CMD_BUF_SIZE: nat := 0x10000

  /** A length field the reader accepts. */
  predicate Fits(s: seq<byte>)
    requires |s| >= HEADER_SIZE
  {
    HEADER_SIZE <= UnLe32(s) <= CMD_BUF_SIZE
  }

  /** `ib` is `ib_buf[..ib_size]`; commands are handled in the order of `out`. */
  datatype Reader = Reading(ib: seq<byte>) | Closed

  datatype Outcome = Outcome(reader: Reader, out: seq<seq<byte>>)

  /** What the buffer can hold between two wake-ups: part of one message. */
  ghost predicate Partial(ib: seq<byte>) {
    |ib| >= HEADER_SIZE ==> Fits(ib) && |ib| < UnLe32(ib)
  }

  /** What the next `recv` asks for. */
  function Asked(ib: seq<byte>): (n: nat)
    requires Partial(ib)
    ensures n > 0 && |ib| + n <= CMD_BUF_SIZE
  {
    if |ib| < HEADER_SIZE then HEADER_SIZE - |ib| else UnLe32(ib) - |ib|
  }

  /** What becomes of the bytes gathered so far. */
  function Examine(ib: seq<byte>): (r: Outcome)
    ensures r.reader.Reading? ==> Partial(r.reader.ib)
  {
    if |ib| < HEADER_SIZE then Outcome(Reading(ib), [])
    else if !Fits(ib) then Outcome(Closed, [])
    else if |ib| < UnLe32(ib) then Outcome(Reading(ib), [])
    else Outcome(Reading([]), [ib])
  }

  // ---------------------------------------------------------------- any portions

  /** Portions a socket may yield: none empty, none more than was asked for, none after closing. */
  ghost predicate Portions(r: Reader, ds: seq<seq<byte>>)
    requires r.Reading? ==> Partial(r.ib)
    decreases |ds|
  {
    ds == [] || (r.Reading? && 0 < |ds[0]| <= Asked(r.ib) && Portions(Examine(r.ib + ds[0]).reader, ds[1..]))
  }

  /** A run of wake-ups. */
  ghost function Run(r: Reader, ds: seq<seq<byte>>): (o: Outcome)
    requires r.Reading? ==> Partial(r.ib)
    requires Portions(r, ds)
    ensures o.reader.Reading? ==> Partial(o.reader.ib)
    decreases |ds|
  {
    if ds == [] then Outcome(r, []) else
    var o := Examine(r.ib + ds[0]);
    var o' := Run(o.reader, ds[1..]);
    Outcome(o'.reader, o.out + o'.out)
  }

  function Flat(ds: seq<seq<byte>>): seq<byte> {
    if ds == [] then [] else ds[0] + Flat(ds[1..])
  }

  /** The reference: the messages of a stream, taken off one after the other. */
  function Split(s: seq<byte>): Outcome
    decreases |s|
  {
    if |s| < HEADER_SIZE then Outcome(Reading(s), [])
    else if !Fits(s) then Outcome(Closed, [])
    else if |s| < UnLe32(s) then Outcome(Reading(s), [])
    else
      var o := Split(s[UnLe32(s)..]);
      Outcome(o.reader, [s[..UnLe32(s)]] + o.out)
  }

  lemma SameHeader(s: seq<byte>, rest: seq<byte>)
    requires |s| >= 4
    ensures UnLe32(s + rest) == UnLe32(s)
  {
  }

  /** One portion: the reader looks at no more than one message, and at nothing behind it. */
  lemma PortionSplits(ib: seq<byte>, d: seq<byte>, rest: seq<byte>)
    requires Partial(ib) && 0 < |d| <= Asked(ib)
    ensures var o := Examine(ib + d);
            match o.reader
            case Closed => Split(ib + d + rest) == Outcome(Closed, []) && o.out == []
            case Reading(ib') =>
              var o' := Split(ib' + rest);
              Split(ib + d + rest) == Outcome(o'.reader, o.out + o'.out)
  {
    var s := ib + d;
    if |ib| >= HEADER_SIZE {
      SameHeader(ib, d);
    }
    if |s| >= HEADER_SIZE {
      SameHeader(s, rest);
    }
    var o := Examine(s);
    if o.reader.Reading? && o.out != [] {
      hide UnLe32;
      assert |s| == UnLe32(s);
      assert (s + rest)[..|s|] == s && (s + rest)[|s|..] == rest == [] + rest;
    }
  }

  /**
    For every stream and every way the socket hands it over, the commands handled and what is left
    in the buffer are those of the reference.
   */
  lemma {:induction false} RunSplits(ib: seq<byte>, ds: seq<seq<byte>>)
    requires Partial(ib) && Portions(Reading(ib), ds)
    ensures Run(Reading(ib), ds) == Split(ib + Flat(ds))
    decreases |ds|
  {
    if ds == [] {
      assert ib + Flat(ds) == ib;
    } else {
      hide Fits, UnLe32, Split;
      var d, rest := ds[0], ds[1..];
      var o := Examine(ib + d);
      assert ib + Flat(ds) == ib + d + Flat(rest);
      PortionSplits(ib, d, Flat(rest));
      if o.reader.Reading? {
        RunSplits(o.reader.ib, rest);
      } else {
        assert rest == [];
        assert Run(o.reader, rest) == Outcome(Closed, []);
      }
    }
  }

  /** How the stream was cut does not matter. */
  lemma FragmentationIrrelevant(ds: seq<seq<byte>>, es: seq<seq<byte>>)
    requires Portions(Reading([]), ds) && Portions(Reading([]), es) && Flat(ds) == Flat(es)
    ensures Run(Reading([]), ds) == Run(Reading([]), es)
  {
    RunSplits([], ds);
    RunSplits([], es);
  }

  // ---------------------------------------------------------------- what the reference does

  /** Nothing is lost, reordered or read ahead: the commands and the remainder are the stream. */
  lemma {:induction false} SplitConserves(s: seq<byte>)
    ensures var o := Split(s); o.reader.Reading? ==> s == Flat(o.out) + o.reader.ib && Partial(o.reader.ib)
    decreases |s|
  {
    hide UnLe32;
    if |s| >= HEADER_SIZE && Fits(s) && UnLe32(s) <= |s| {
      var m, rest := s[..UnLe32(s)], s[UnLe32(s)..];
      SplitConserves(rest);
      var o := Split(rest);
      assert Split(s) == Outcome(o.reader, [m] + o.out);
      assert ([m] + o.out)[1..] == o.out;
      assert s == m + rest;
      if o.reader.Reading? {
        assert s == m + (Flat(o.out) + o.reader.ib) == (m + Flat(o.out)) + o.reader.ib;
      }
    } else {
      assert s == [] + s;
    }
  }

  /** Messages a client may send. */
  ghost predicate Acceptable(m: Message) {
    HEADER_SIZE + |m.payload| <= CMD_BUF_SIZE
  }

  ghost predicate AllAcceptable(ms: seq<Message>) {
    forall i :: 0 <= i < |ms| ==> Acceptable(ms[i])
  }

  /** Taking an acceptable message off the front. */
  lemma {:induction false} SplitMessage(m: Message, rest: seq<byte>)
    requires Acceptable(m)
    ensures var o := Split(rest); Split(Encode(m) + rest) == Outcome(o.reader, [Encode(m)] + o.out)
  {
    var e := Encode(m);
    DecodeEncode(m, rest);
    hide UnLe32, Encode;
    assert (e + rest)[..|e|] == e && (e + rest)[|e|..] == rest;
  }

  /** The header of a message that is refused. */
  ghost predicate BadHeader(s: seq<byte>) {
    |s| >= HEADER_SIZE && !Fits(s)
  }

  lemma SplitRest(rest: seq<byte>)
    requires |rest| < HEADER_SIZE || BadHeader(rest)
    ensures Split(rest) == Outcome(if BadHeader(rest) then Closed else Reading(rest), [])
  {
  }

  /**
    Acceptable messages are handled exactly, in order, whatever follows; and the client is closed
    behind them exactly when what follows starts with a header that does not fit.
   */
  lemma {:induction false} CommandsExact(ms: seq<Message>, rest: seq<byte>)
    requires AllAcceptable(ms) && (|rest| < HEADER_SIZE || BadHeader(rest))
    ensures var o := Split(EncodeAll(ms) + rest);
            && |o.out| == |ms|
            && (forall i :: 0 <= i < |ms| ==> o.out[i] == Encode(ms[i]))
            && o.reader == if BadHeader(rest) then Closed else Reading(rest)
  {
    hide Encode, UnLe32, Fits, Split, BadHeader;
    if ms == [] {
      assert EncodeAll(ms) + rest == rest;
      SplitRest(rest);
    } else {
      var tail := EncodeAll(ms[1..]) + rest;
      EncodeAllFront(ms);
      assert EncodeAll(ms) + rest == Encode(ms[0]) + tail;
      CommandsExact(ms[1..], rest);
      SplitMessage(ms[0], tail);
      var o := Split(EncodeAll(ms) + rest);
      forall i | 0 <= i < |ms| ensures o.out[i] == Encode(ms[i]) {
        if i > 0 {
          assert o.out[i] == Split(tail).out[i - 1] && ms[1..][i - 1] == ms[i];
        }
      }
    }
  }

  /** A handled command is always a whole message with the length its header says. */
  lemma {:induction false} HandledWhole(s: seq<byte>)
    ensures forall m :: m in Split(s).out ==> HEADER_SIZE <= |m| <= CMD_BUF_SIZE && UnLe32(m) == |m|
    decreases |s|
  {
    if |s| >= HEADER_SIZE && Fits(s) && UnLe32(s) <= |s| {
      var m := s[..UnLe32(s)];
      SameHeader(m, s[UnLe32(s)..]);
      assert s == m + s[UnLe32(s)..];
      HandledWhole(s[UnLe32(s)..]);
    }
  }

  // ---------------------------------------------------------------- in place

  /** Outcome of `recv`: an error, end of file, or data. */
  datatype Recv = Failed | EndOfFile | Data(bytes: seq<byte>)

  /** The reading side of a `mux_client` that is waiting for commands. */
  class CommandReader {
    const ibBuf: array<byte>
    var ibSize: nat
    var closed: bool

    ghost predicate Valid()
      reads this, ibBuf
    {
      ibBuf.Length == CMD_BUF_SIZE && ibSize <= ibBuf.Length && Partial(ibBuf[..ibSize])
    }

    ghost function View(): Reader
      requires Valid()
      reads this, ibBuf
    {
      if closed then Closed else Reading(ibBuf[..ibSize])
    }

    constructor ()
      ensures Valid() && View() == Reading([]) && fresh(ibBuf)
    {
      ibBuf := new byte[CMD_BUF_SIZE](_ => 0);
      ibSize, closed := 0, false;
    }

    /** `recv` stores at the end of what is there. */
    method Store(d: seq<byte>)
      requires ibSize + |d| <= ibBuf.Length
      modifies this`ibSize, ibBuf
      ensures ibSize == old(ibSize) + |d| && ibBuf[..ibSize] == old(ibBuf[..ibSize]) + d
    {
      for i := 0 to |d|
        invariant ibBuf[..ibSize] == old(ibBuf[..ibSize])
        invariant forall j :: 0 <= j < i ==> ibBuf[ibSize + j] == d[j]
        modifies ibBuf
      {
        ibBuf[ibSize + i] := d[i];
      }
      ibSize := ibSize + |d|;
    }

    /**
      `input_buffer_process` up to `handle_command`: `out` holds the command that is handled. One
      wake-up reads once, and never more than was asked for.
     */
    method Process(got: Recv) returns (out: seq<seq<byte>>)
      requires Valid() && !closed
      requires got.Data? ==> 0 < |got.bytes| <= Asked(ibBuf[..ibSize])
      modifies this, ibBuf
      ensures Valid()
      ensures !got.Data? ==> View() == Closed && out == []
      ensures got.Data? ==> Outcome(View(), out) == Examine(old(ibBuf[..ibSize]) + got.bytes)
    {
      ghost var was := ibBuf[..ibSize];
      var didRead := false;
      out := [];
      if ibSize < HEADER_SIZE {
        if !got.Data? {
          closed := true;
          return;
        }
        Store(got.bytes);
        if ibSize < HEADER_SIZE {
          return;
        }
        didRead := true;
      }
      var length := UnLe32(ibBuf[..ibSize]);
      if length > CMD_BUF_SIZE || length < HEADER_SIZE {
        closed, ibSize := true, 0;
        return;
      }
      if ibSize < length {
        if didRead {
          return;
        }
        if !got.Data? {
          closed := true;
          return;
        }
        Store(got.bytes);
        SameHeader(was, got.bytes);
        if ibSize < length {
          return;
        }
      }
      out := [ibBuf[..ibSize]];
      ibSize := 0;
    }
  }
}

/** The buffer of replies of a client (`output_buffer_add_message`, `output_buffer_process`). */
module ClientOutput {
  import opened Words
  import opened Messages

  const REPLY_BUF_SIZE: nat := 0x10000

  /** A payload length is a C `int`. */
  const MAX_LENGTH: nat := 0x8000_0000

  /** The new capacity, computed with 32 bits: whole pages of 4096 bytes. */
  function Grown(capacity: u32, n: u32): u32 {
    (capacity + n + 4096) % U32 / 4096 * 4096
  }

  /** The sum of the computation above does not fit in 32 bits. */
  predicate Wraps(capacity: u32, n: u32) {
    capacity + n + 4096 >= U32
  }

  lemma GrownPages(capacity: u32, n: u32)
    requires !Wraps(capacity, n)
    ensures Grown(capacity, n) % 4096 == 0 && capacity + n < Grown(capacity, n)
  {
    assert (capacity + n + 4096) % U32 == capacity + n + 4096;
  }

  /**
    When the buffer has to grow, the new one has room for the message if and only if the sum does not
    wrap; one that wraps, at a capacity of almost 4 GB, is too small.
   */
  lemma GrowthFits(capacity: u32, size: nat, n: u32)
    requires capacity % 4096 == 0 && size <= capacity < size + n
    ensures Grown(capacity, n) >= size + n <==> !Wraps(capacity, n)
  {
    if Wraps(capacity, n) {
      var over := capacity + n + 4096 - U32;
      assert (capacity + n + 4096) % U32 == over;
      assert capacity <= U32 - 4096;
      assert over <= n;
    } else {
      GrownPages(capacity, n);
    }
  }

  /** The length of a binary result message. */
  const RESULT_LENGTH: u32 := 20

  /** An input at which the grown buffer is too small: it has no room at all. */
  lemma GrowthFails()
    ensures Wraps(0xFFFF_F000, RESULT_LENGTH) && Grown(0xFFFF_F000, RESULT_LENGTH) == 0
  {
  }

  /** The capacity after `n` result messages for a client that never reads. */
  function Capacity(n: nat): u32 {
    if n == 0 then REPLY_BUF_SIZE
    else if Capacity(n - 1) - RESULT_LENGTH * (n - 1) < RESULT_LENGTH then Grown(Capacity(n - 1), RESULT_LENGTH)
    else Capacity(n - 1)
  }

  /** Whole pages, and beyond the first 16 no more than `size` bytes need. */
  ghost predicate Snug(capacity: int, size: int) {
    capacity % 4096 == 0 && size <= capacity <= 0xFFFF_F000 && (capacity == REPLY_BUF_SIZE || capacity - 4096 < size)
  }

  lemma SnugStep(capacity: u32, size: nat)
    requires Snug(capacity, size) && size + RESULT_LENGTH <= 0xFFFF_F000
    ensures Snug(if capacity - size < RESULT_LENGTH then Grown(capacity, RESULT_LENGTH)
        else capacity, size + RESULT_LENGTH)
  {
    if capacity - size < RESULT_LENGTH {
      OnePage(capacity);
      hide Grown;
    }
  }

  /** As long as nothing wraps, the capacity is the least that holds the messages. */
  lemma {:induction false} CapacityPages(n: nat)
    requires RESULT_LENGTH * n <= 0xFFFF_F000
    ensures Snug(Capacity(n), RESULT_LENGTH * n)
  {
    if n > 0 {
      CapacityPages(n - 1);
      hide Snug, Grown;
      SnugStep(Capacity(n - 1), RESULT_LENGTH * (n - 1));
    }
  }

  lemma OnePage(capacity: u32)
    requires capacity % 4096 == 0 && capacity < 0xFFFF_F000
    ensures Grown(capacity, RESULT_LENGTH) == capacity + 4096
  {
    var pages := capacity / 4096;
    assert capacity == pages * 4096;
    assert (capacity + RESULT_LENGTH + 4096) % U32 == capacity + RESULT_LENGTH + 4096;
    assert (pages * 4096 + 4116) / 4096 == pages + 1;
  }

  /** The message at which the buffer of such a client is full and its growth wraps. */
  const LAST_MESSAGE: nat := 214748160

  lemma CapacityWraps()
    ensures Capacity(LAST_MESSAGE) == RESULT_LENGTH * LAST_MESSAGE == 0xFFFF_F000
    ensures Capacity(LAST_MESSAGE + 1) == 0
  {
    CapacityPages(LAST_MESSAGE);
    GrowthFails();
  }

  lemma EncodeAllSnoc(ms: seq<Message>, m: Message)
    ensures EncodeAll(ms + [m]) == EncodeAll(ms) + Encode(m)
  {
    hide Encode;
    assert (ms + [m])[..|ms|] == ms;
  }

  /** `sent` is what the socket has taken so far, `queued` every message added. */
  class OutputBuffer {
    var obBuf: array<byte>
    var obSize: nat
    ghost var queued: seq<Message>
    ghost var sent: seq<byte>

    /** Everything that was sent or still waits is the encoding of the messages, in order. */
    ghost predicate Valid()
      reads this, obBuf
    {
      && obSize <= obBuf.Length < U32 && obBuf.Length % 4096 == 0
      && sent + obBuf[..obSize] == EncodeAll(queued)
    }

    constructor ()
      ensures Valid() && queued == [] && sent == [] && obSize == 0 && fresh(obBuf) && obBuf.Length == REPLY_BUF_SIZE
    {
      obBuf := new byte[REPLY_BUF_SIZE](_ => 0);
      obSize, queued, sent := 0, [], [];
    }

    /** The loop of `memcpy` and of `memmove` to lower addresses. */
    method Copy(to: array<byte>, at: nat, s: seq<byte>)
      requires at + |s| <= to.Length
      modifies to
      ensures to[..at] == old(to[..at]) && to[at..at + |s|] == s
    {
      for i := 0 to |s|
        invariant to[..at] == old(to[..at])
        invariant forall j :: 0 <= j < i ==> to[at + j] == s[j]
      {
        to[at + i] := s[i];
      }
    }

    /** `realloc`: a larger buffer with the same bytes in front. */
    method Enlarge(size: nat)
      requires obSize <= obBuf.Length <= size
      modifies this`obBuf
      ensures fresh(obBuf) && obBuf.Length == size && obBuf[..obSize] == old(obBuf[..obSize])
    {
      var bigger := new byte[size](_ => 0);
      Copy(bigger, 0, obBuf[..obSize]);
      assert bigger[..obSize] == bigger[0..obSize];
      obBuf := bigger;
    }

    /** The message fits, or the buffer can be made to fit it; `GrowthFits` says that nothing less will do. */
    predicate Room(m: Message)
      requires Valid()
      reads this, obBuf
    {
      && |m.payload| < MAX_LENGTH && obBuf.Length < U32
      && (obSize + |Encode(m)| <= obBuf.Length || !Wraps(obBuf.Length, |Encode(m)|))
    }

    /** `output_buffer_add_message`. Where the grown buffer would be too small the model reports that and stops. */
    method AddMessage(m: Message) returns (fits: bool)
      requires Valid()
      modifies this, obBuf
      ensures Valid() && (fits <==> old(Room(m)))
      ensures !fits ==> unchanged(this) && unchanged(old(obBuf))
      ensures fits ==> queued == old(queued) + [m] && sent == old(sent) && obSize > 0
      ensures obBuf == old(obBuf) || fresh(obBuf)
      ensures fits ==> obBuf.Length == if old(obSize) + |Encode(m)| <= old(obBuf.Length) then old(obBuf.Length)
                                       else Grown(old(obBuf.Length), |Encode(m)|)
    {
      hide Encode, EncodeAll;
      fits := Room(m);
      if fits {
        var bytes := Encode(m);
        if obBuf.Length - obSize < |bytes| {
          GrownPages(obBuf.Length, |bytes|);
          hide Grown;
          Enlarge(Grown(obBuf.Length, |bytes|));
        }
        Append(bytes);
        EncodeAllSnoc(queued, m);
        assert sent + (old(obBuf[..obSize]) + bytes) == (sent + old(obBuf[..obSize])) + bytes;
        queued := queued + [m];
      }
    }

    method Append(bytes: seq<byte>)
      requires obSize + |bytes| <= obBuf.Length
      modifies this`obSize, obBuf
      ensures obSize == old(obSize) + |bytes| && obBuf[..obSize] == old(obBuf[..obSize]) + bytes
    {
      Copy(obBuf, obSize, bytes);
      obSize := obSize + |bytes|;
    }

    /** `output_buffer_process` when `send` took the first `n` bytes. */
    method Process(n: nat)
      requires Valid() && n <= obSize
      modifies this`obSize, this`sent, obBuf
      ensures Valid() && obSize == old(obSize) - n
      ensures sent == old(sent) + old(obBuf[..obSize])[..n]
    {
      ghost var was := obBuf[..obSize];
      if n == obSize {
        obSize := 0;
        assert was[..n] == was;
      } else {
        var rest := obBuf[n..obSize];
        Copy(obBuf, 0, rest);
        obSize := obSize - n;
        assert obBuf[..obSize] == obBuf[0..0 + |rest|] == rest == was[n..];
      }
      sent := sent + was[..n];
      assert was == was[..n] + was[n..];
      assert (old(sent) + was[..n]) + was[n..] == old(sent) + was;
    }
  }

  /**
    At any time a client that reads off the bytes it got so far has a prefix of the messages, none
    changed, and less than one message left over.
   */
  lemma {:induction false} SentPrefix(sent: seq<byte>, ob: seq<byte>, ms: seq<Message>)
    requires AllSized(ms) && sent + ob == EncodeAll(ms)
    ensures var (got, rest) := ReadOff(sent, |ms|); ReadSoFar(ms, sent, got, rest)
    ensures ob == [] ==> ReadOff(sent, |ms|) == (ms, [])
  {
    assert sent <= sent + ob;
    ReadOffPrefix(ms, sent);
    if ob == [] {
      assert sent == EncodeAll(ms) + [];
      ReadOffAll(ms, []);
    }
  }
}
