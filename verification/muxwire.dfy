/**
  Mux packets on the wire: how `send_packet` (src/device.c) lays them out, how the dispatch at the
  end of `device_data_input` reads them, and the two joined through `Bulk` and `Reassembly`.
 */
module MuxWire {
  import opened Words
  import opened Transport
  import opened Reassembly
  import Bulk

  const PROTO_VERSION: u32 := 0
  const PROTO_CONTROL: u32 := 1
  const PROTO_SETUP: u32 := 2
  const PROTO_TCP: u32 := 6
  const MAGIC: u32 := 0xfeedface
  const VERSION_HEADER_SIZE: nat := 12

  // ---------------------------------------------------------------- numbers and flags

  lemma Be16RoundTrip(n: u16, rest: seq<byte>)
    ensures UnBe16(Be16(n) + rest) == n
  {
  }

  lemma Be32RoundTrip(n: u32, rest: seq<byte>)
    ensures UnBe32(Be32(n) + rest) == n
  {
    var hi, lo := n / 0x1_0000, n % 0x1_0000;
    assert Be32(n) + rest == Be16(hi) + (Be16(lo) + rest);
    Be16RoundTrip(hi, Be16(lo) + rest);
    assert (Be32(n) + rest)[2..] == Be16(lo) + rest;
    Be16RoundTrip(lo, rest);
  }

  /** The position of a flag in the flags byte (section 3.1 of RFC 9293). */
  function Position(f: Flag): nat {
    match f
    case FIN => 0
    case SYN => 1
    case RST => 2
    case PSH => 3
    case ACK => 4
    case URG => 5
    case ECE => 6
    case CWR => 7
  }

  const FLAGS: seq<Flag> := [FIN, SYN, RST, PSH, ACK, URG, ECE, CWR]

  function Bit(fs: set<Flag>, f: Flag): nat {
    if f in fs then 1 else 0
  }

  /** The flags from position `k` on, the lowest bit for `FLAGS[k]`. */
  function FlagsFrom(fs: set<Flag>, k: nat): (n: nat)
    requires k <= 8
    decreases 8 - k
  {
    if k == 8 then 0 else Bit(fs, FLAGS[k]) + 2 * FlagsFrom(fs, k + 1)
  }

  function FlagByte(fs: set<Flag>): byte {
    FlagsBounded(fs, 0);
    FlagsFrom(fs, 0)
  }

  function Power(k: nat): nat {
    if k == 0 then 1 else 2 * Power(k - 1)
  }

  lemma {:induction false} FlagsBounded(fs: set<Flag>, k: nat)
    requires k <= 8
    ensures FlagsFrom(fs, k) < Power(8 - k)
    ensures k == 0 ==> FlagsFrom(fs, k) < 256
    decreases 8 - k
  {
    if k < 8 {
      FlagsBounded(fs, k + 1);
    }
    assert Power(8) == 256 by {
      assert Power(4) == 16 && Power(6) == 64;
    }
  }

  /** Bit `k` of `n`. */
  predicate Has(n: nat, k: nat) {
    if k == 0 then n % 2 == 1 else Has(n / 2, k - 1)
  }

  function UnFlagByte(b: byte): set<Flag> {
    set f: Flag | f in FLAGS && Has(b, Position(f))
  }

  lemma FlagsRoundTrip(fs: set<Flag>)
    ensures UnFlagByte(FlagByte(fs)) == fs
  {
    forall f: Flag ensures f in UnFlagByte(FlagByte(fs)) <==> f in fs {
      assert FLAGS[Position(f)] == f;
      FlagKept(fs, 0, Position(f));
    }
  }

  lemma {:induction false} FlagKept(fs: set<Flag>, j: nat, k: nat)
    requires j <= k < 8
    ensures Has(FlagsFrom(fs, j), k - j) <==> FLAGS[k] in fs
    decreases k - j
  {
    var rest := FlagsFrom(fs, j + 1);
    assert FlagsFrom(fs, j) / 2 == rest;
    if j < k {
      FlagKept(fs, j + 1, k);
    }
  }

  // ---------------------------------------------------------------- packets

  /** What `send_packet` reads of a `mux_device`. */
  datatype Dev = Dev(version: nat, txSeq: u16, rxSeq: u16)

  /** A packet handed to `send_packet`: the protocol, its header and the data behind it. */
  datatype Packet = Packet(proto: u32, header: seq<byte>, data: seq<byte>)

  /** The header size of each protocol that may be sent, and -1 for the others. */
  function ProtoSize(proto: u32): int {
    if proto == PROTO_VERSION then VERSION_HEADER_SIZE
    else if proto == PROTO_SETUP then 0
    else if proto == PROTO_TCP then TCP_HEADER_SIZE
    else -1
  }

  function Total(d: Dev, p: Packet): nat {
    HeaderSize(d.version) + |p.header| + |p.data|
  }

  /** Packets `send_packet` does not reject. */
  predicate Acceptable(d: Dev, p: Packet) {
    ProtoSize(p.proto) == |p.header| && Total(d, p) <= USB_MTU
  }

  /** The device with the sequence numbers that go into the packet. */
  function Numbered(d: Dev, p: Packet): Dev {
    if d.version >= 2 && p.proto == PROTO_SETUP then d.(txSeq := 0, rxSeq := 0xFFFF) else d
  }

  function Advanced(d: Dev, p: Packet): Dev {
    var n := Numbered(d, p);
    if d.version >= 2 then n.(txSeq := (n.txSeq + 1) % 0x1_0000) else n
  }

  function MuxHeader(d: Dev, proto: u32, total: u32): (h: seq<byte>)
    ensures |h| == HeaderSize(d.version)
  {
    Be32(proto) + Be32(total) + (if d.version < 2 then [] else Be32(MAGIC) + Be16(d.txSeq) + Be16(d.rxSeq))
  }

  /** The bytes given to `usb_send`. */
  function Bytes(d: Dev, p: Packet): (b: seq<byte>)
    requires Acceptable(d, p)
    ensures |b| == Total(d, p)
  {
    MuxHeader(Numbered(d, p), p.proto, Total(d, p)) + p.header + p.data
  }

  function TcpHeader(s: Segment): (h: seq<byte>)
    ensures |h| == TCP_HEADER_SIZE
  {
    Be16(s.sport) + Be16(s.dport) + Be32(s.seqno) + Be32(s.ackno) +
    [0x50, FlagByte(s.flags)] + Be16(s.win) + Be16(0) + Be16(0)
  }

  function VersionHeader(major: u32, minor: u32): (h: seq<byte>)
    ensures |h| == VERSION_HEADER_SIZE
  {
    Be32(major) + Be32(minor) + Be32(0)
  }

  function TcpPacket(s: Segment): Packet {
    Packet(PROTO_TCP, TcpHeader(s), s.payload)
  }

  // ---------------------------------------------------------------- the dispatch

  datatype Incoming =
    | Tcp(segment: Segment)
    | Version(major: u32, minor: u32)
    | Control
    | TooSmall
    | Unknown(proto: u32)

  function UnTcp(b: seq<byte>): Segment
    requires |b| >= TCP_HEADER_SIZE
  {
    Segment(UnBe16(b), UnBe16(b[2..]), UnBe32(b[4..]), UnBe32(b[8..]),
            UnFlagByte(b[13]), UnBe16(b[14..]), b[TCP_HEADER_SIZE..])
  }

  /** The switch at the end of `device_data_input`, on a packet with the right length field. */
  function Dispatch(version: nat, p: seq<byte>): Incoming
    requires |p| >= 8
  {
    var proto := UnBe32(p);
    var n := HeaderSize(version);
    if proto == PROTO_VERSION then
      if |p| < n + VERSION_HEADER_SIZE then TooSmall else Version(UnBe32(p[n..]), UnBe32(p[n + 4..]))
    else if proto == PROTO_CONTROL then Control
    else if proto == PROTO_TCP then
      if |p| < n + TCP_HEADER_SIZE then TooSmall else Tcp(UnTcp(p[n..]))
    else Unknown(proto)
  }

  /** What a mux header says, whatever follows it. */
  lemma HeaderRead(d: Dev, proto: u32, total: u32, rest: seq<byte>)
    ensures var p := MuxHeader(d, proto, total) + rest;
            && UnBe32(p) == proto && LengthField(p) == total
            && p[HeaderSize(d.version)..] == rest
            && (d.version >= 2 ==> UnBe16(p[12..]) == d.txSeq && UnBe16(p[14..]) == d.rxSeq)
  {
    hide Be32, Be16, UnBe32, UnBe16;
    var p := MuxHeader(d, proto, total) + rest;
    var tail := (if d.version < 2 then [] else Be32(MAGIC) + Be16(d.txSeq) + Be16(d.rxSeq)) + rest;
    assert p == Be32(proto) + (Be32(total) + tail);
    Be32RoundTrip(proto, Be32(total) + tail);
    assert p[4..] == Be32(total) + tail;
    Be32RoundTrip(total, tail);
    if d.version >= 2 {
      assert p[12..] == Be16(d.txSeq) + (Be16(d.rxSeq) + rest);
      Be16RoundTrip(d.txSeq, Be16(d.rxSeq) + rest);
      assert p[14..] == Be16(d.rxSeq) + rest;
      Be16RoundTrip(d.rxSeq, rest);
    }
  }

  lemma TcpRead(s: Segment)
    ensures UnTcp(TcpHeader(s) + s.payload) == s
  {
    hide Be32, Be16, UnBe32, UnBe16, FlagByte, UnFlagByte;
    var b := TcpHeader(s) + s.payload;
    var t6 := Be16(0) + Be16(0) + s.payload;
    var t5 := [0x50, FlagByte(s.flags)] + (Be16(s.win) + t6);
    var t4 := Be32(s.ackno) + t5;
    var t3 := Be32(s.seqno) + t4;
    assert b == Be16(s.sport) + (Be16(s.dport) + t3);
    Be16RoundTrip(s.sport, Be16(s.dport) + t3);
    assert b[2..] == Be16(s.dport) + t3;
    Be16RoundTrip(s.dport, t3);
    assert b[4..] == t3;
    Be32RoundTrip(s.seqno, t4);
    assert b[8..] == t4;
    Be32RoundTrip(s.ackno, t5);
    assert b[13] == t5[1] == FlagByte(s.flags);
    FlagsRoundTrip(s.flags);
    assert b[14..] == Be16(s.win) + t6;
    Be16RoundTrip(s.win, t6);
    assert b[TCP_HEADER_SIZE..] == s.payload;
  }

  /** A built packet is well-formed, for every protocol and version. */
  lemma BuiltWellFormed(d: Dev, p: Packet)
    requires Acceptable(d, p)
    ensures WellFormed(Bytes(d, p))
  {
    hide MuxHeader, LengthField, Be32, Be16, UnBe32, UnBe16;
    assert Bytes(d, p) == MuxHeader(Numbered(d, p), p.proto, Total(d, p)) + (p.header + p.data);
    HeaderRead(Numbered(d, p), p.proto, Total(d, p), p.header + p.data);
  }

  /** Reading back a TCP packet gives the segment, whatever the sequence numbers in the mux header. */
  lemma DispatchTcp(d: Dev, s: Segment)
    requires Acceptable(d, TcpPacket(s))
    ensures Dispatch(d.version, Bytes(d, TcpPacket(s))) == Tcp(s)
  {
    hide MuxHeader, LengthField, Be32, Be16, UnBe32, UnBe16, UnTcp, TcpHeader;
    var p := TcpPacket(s);
    assert Bytes(d, p) == MuxHeader(Numbered(d, p), p.proto, Total(d, p)) + (p.header + p.data);
    HeaderRead(Numbered(d, p), p.proto, Total(d, p), p.header + p.data);
    TcpRead(s);
  }

  lemma DispatchVersion(d: Dev, major: u32, minor: u32)
    ensures var p := Packet(PROTO_VERSION, VersionHeader(major, minor), []);
            Acceptable(d, p) && Dispatch(d.version, Bytes(d, p)) == Version(major, minor)
  {
    hide MuxHeader, LengthField, Be32, Be16, UnBe32, UnBe16;
    var h := VersionHeader(major, minor);
    var p := Packet(PROTO_VERSION, h, []);
    var b := Bytes(d, p);
    var n := HeaderSize(d.version);
    assert b == MuxHeader(Numbered(d, p), p.proto, Total(d, p)) + h;
    HeaderRead(Numbered(d, p), p.proto, Total(d, p), h);
    assert h == Be32(major) + (Be32(minor) + Be32(0));
    Be32RoundTrip(major, Be32(minor) + Be32(0));
    assert b[n + 4..] == b[n..][4..] == Be32(minor) + Be32(0);
    Be32RoundTrip(minor, Be32(0));
  }

  // ---------------------------------------------------------------- runs

  ghost predicate AllAcceptable(d: Dev, ps: seq<Packet>)
    decreases |ps|
  {
    ps == [] || (Acceptable(d, ps[0]) && AllAcceptable(Advanced(d, ps[0]), ps[1..]))
  }

  /** The bytes of a sequence of calls of `send_packet`. */
  ghost function Sent(d: Dev, ps: seq<Packet>): (bs: seq<seq<byte>>)
    requires AllAcceptable(d, ps)
    ensures |bs| == |ps| && forall i :: 0 <= i < |bs| ==> |bs[i]| >= HeaderSize(d.version)
    decreases |ps|
  {
    if ps == [] then [] else [Bytes(d, ps[0])] + Sent(Advanced(d, ps[0]), ps[1..])
  }

  lemma {:induction false} SentWellFormed(d: Dev, ps: seq<Packet>)
    requires AllAcceptable(d, ps)
    ensures AllWellFormed(Sent(d, ps))
    decreases |ps|
  {
    if ps != [] {
      BuiltWellFormed(d, ps[0]);
      SentWellFormed(Advanced(d, ps[0]), ps[1..]);
    }
  }

  function TxNumber(b: seq<byte>): u16
    requires |b| >= MUX_HEADER_SIZE
  {
    UnBe16(b[12..])
  }

  /**
    The number `send_packet` puts into the i-th packet when the packets after the first are not
    SETUP: one more each time, from the number the device had, or from zero when the first is SETUP.
   */
  lemma CountOn(first: nat, i: nat)
    requires i > 0
    ensures ((first + 1) % 0x1_0000 + (i - 1)) % 0x1_0000 == (first + i) % 0x1_0000
  {
  }

  lemma {:induction false} Numbering(d: Dev, ps: seq<Packet>, i: nat)
    requires AllAcceptable(d, ps) && i < |ps| && d.version >= 2
    requires forall j :: 1 <= j <= i ==> ps[j].proto != PROTO_SETUP
    ensures TxNumber(Sent(d, ps)[i]) ==
            ((if ps[0].proto == PROTO_SETUP then 0 else d.txSeq) + i) % 0x1_0000
    decreases |ps|
  {
    hide Acceptable, Bytes, TxNumber;
    var p := ps[0];
    if i == 0 {
      BytesNumber(d, p);
    } else {
      var d', first: nat := Advanced(d, p), Numbered(d, p).txSeq;
      forall j | 1 <= j <= i - 1 ensures ps[1..][j].proto != PROTO_SETUP {
        assert ps[1..][j] == ps[j + 1];
      }
      Numbering(d', ps[1..], i - 1);
      assert Sent(d, ps)[i] == Sent(d', ps[1..])[i - 1];
      assert d'.txSeq == (first + 1) % 0x1_0000;
      CountOn(first, i);
    }
  }

  lemma BytesNumber(d: Dev, p: Packet)
    requires Acceptable(d, p) && d.version >= 2
    ensures TxNumber(Bytes(d, p)) == Numbered(d, p).txSeq
  {
    hide MuxHeader, LengthField, Be32, Be16, UnBe32, UnBe16;
    assert Bytes(d, p) == MuxHeader(Numbered(d, p), p.proto, Total(d, p)) + (p.header + p.data);
    HeaderRead(Numbered(d, p), p.proto, Total(d, p), p.header + p.data);
  }

  function Packets(ss: seq<Segment>): (ps: seq<Packet>)
    ensures |ps| == |ss|
    ensures forall i :: 0 <= i < |ss| ==> ps[i] == TcpPacket(ss[i])
  {
    seq(|ss|, i requires 0 <= i < |ss| => TcpPacket(ss[i]))
  }

  ghost predicate ReadsBack(version: nat, bs: seq<seq<byte>>, ss: seq<Segment>) {
    && |bs| == |ss|
    && forall i :: 0 <= i < |bs| ==> |bs[i]| >= 8 && Dispatch(version, bs[i]) == Tcp(ss[i])
  }

  lemma {:induction false} SentReadsBack(d: Dev, ss: seq<Segment>)
    requires AllAcceptable(d, Packets(ss))
    ensures ReadsBack(d.version, Sent(d, Packets(ss)), ss)
    decreases |ss|
  {
    hide Dispatch, Acceptable, TcpPacket, Bytes;
    if ss != [] {
      var ps := Packets(ss);
      assert ps[1..] == Packets(ss[1..]);
      AcceptableTcp(d, ss[0]);
      SentReadsBack(Advanced(d, ps[0]), ss[1..]);
    }
  }

  lemma AcceptableTcp(d: Dev, s: Segment)
    requires Acceptable(d, TcpPacket(s))
    ensures |Bytes(d, TcpPacket(s))| >= 8
    ensures Dispatch(d.version, Bytes(d, TcpPacket(s))) == Tcp(s)
  {
    DispatchTcp(d, s);
  }

  /**
    The whole pipe: segments that a peer lays out as `send_packet` does and frames by the rule of
    `Bulk.Terminated`, cut into bus packets, read in transfers of USB_MRU bytes, reassembled and
    dispatched, come out as the same segments in the same order, with nothing left in the buffer.
   */
  lemma {:induction false} PipeCarriesSegments(d: Dev, ss: seq<Segment>, zlps: seq<bool>, w: nat, ts: seq<Transfer>)
    requires AllAcceptable(d, Packets(ss)) && w > 0 && USB_MRU % w == 0
    requires Bulk.Terminated(Sent(d, Packets(ss)), zlps)
    requires Bulk.Completions(ts, Bulk.Reads([], Bulk.DeviceWire(Sent(d, Packets(ss)), zlps, w), w))
    ensures Run([], ts).pkt == []
    ensures ReadsBack(d.version, Run([], ts).out, ss)
  {
    SentWellFormed(d, Packets(ss));
    Bulk.DeviceToHost(Sent(d, Packets(ss)), zlps, w, ts);
    SentReadsBack(d, ss);
  }

  /** `sendable` is small enough: no segment of a settled connection is ever too large for `send_packet`. */
  lemma {:induction false} TurnAcceptable(c: Conn, ev: Mask, wrote: int, got: Got, ok: bool, now: nat, d: Dev)
    requires Settled(c) && c.txWin < U16 * 256
    ensures forall s | s in ClientTurn(c, ev, wrote, got, ok, now).out :: Acceptable(d, TcpPacket(s))
  {
    assert c.sendable == Transport.Sendable(c) <= MAX_PAYLOAD;
    assert |Received(got, c.sendable)| <= c.sendable;
  }

  /** Nor is any reply to a segment. */
  lemma {:induction false} ReplyAcceptable(c: Conn, s: Segment, ok: bool, now: nat, d: Dev)
    requires c.txWin < U16 * 256
    ensures forall r | r in SegmentIn(c, s, ok, now).out :: Acceptable(d, TcpPacket(r))
  {
    hide TcpHeader, Refresh;
  }

  // ---------------------------------------------------------------- in place

  /** The sending half of a device: its sequence numbers and the transfers given to the USB stack. */
  class MuxPort {
    const version: nat
    const wMaxPacketSize: nat
    var txSeq: u16
    var rxSeq: u16
    var submitted: seq<seq<byte>>

    ghost predicate Valid() {
      wMaxPacketSize > 0
    }

    ghost function View(): Dev
      reads this
    {
      Dev(version, txSeq, rxSeq)
    }

    constructor (version: nat, wMaxPacketSize: nat)
      requires wMaxPacketSize > 0
      ensures Valid() && View() == Dev(version, 0, 0) && submitted == []
      ensures this.wMaxPacketSize == wMaxPacketSize
    {
      this.version, this.wMaxPacketSize := version, wMaxPacketSize;
      txSeq, rxSeq, submitted := 0, 0, [];
    }

    /** `usb_send`; `first` and `second` say whether the USB stack takes the transfers. */
    method UsbSend(buf: seq<byte>, first: bool, second: bool) returns (ok: bool)
      requires Valid()
      modifies this`submitted
      ensures ok <==> first && (|buf| % wMaxPacketSize == 0 ==> second)
      ensures ok ==> submitted == old(submitted) + Bulk.Submitted(buf, wMaxPacketSize)
      ensures !ok ==> submitted == old(submitted) + if first then [buf] else []
    {
      if !first {
        return false;
      }
      submitted := submitted + [buf];
      if |buf| % wMaxPacketSize == 0 {
        if !second {
          return false;
        }
        submitted := submitted + [[]];
      }
      ok := true;
    }

    /** `send_packet`: the result is the number of bytes, or -1. */
    method SendPacket(p: Packet, first: bool, second: bool) returns (res: int)
      requires Valid() && (ProtoSize(p.proto) >= 0 ==> ProtoSize(p.proto) == |p.header|)
      modifies this
      ensures !Acceptable(old(View()), p) ==> res == -1 && View() == old(View()) && submitted == old(submitted)
      ensures Acceptable(old(View()), p) ==> View() == Advanced(old(View()), p)
      ensures Acceptable(old(View()), p) && first && second ==> res == Total(old(View()), p)
      ensures res >= 0 ==> Acceptable(old(View()), p) && res == Total(old(View()), p)
      ensures res >= 0 ==> submitted == old(submitted) + Bulk.Submitted(Bytes(old(View()), p), wMaxPacketSize)
    {
      var size := ProtoSize(p.proto);
      if size < 0 {
        return -1;
      }
      var head := if version < 2 then 8 else MUX_HEADER_SIZE;
      var total := head + size + |p.data|;
      if total > USB_MTU {
        return -1;
      }
      var buffer := Be32(p.proto) + Be32(total);
      if version >= 2 {
        buffer := buffer + Be32(MAGIC);
        if p.proto == PROTO_SETUP {
          txSeq, rxSeq := 0, 0xFFFF;
        }
        buffer := buffer + Be16(txSeq) + Be16(rxSeq);
        txSeq := (txSeq + 1) % 0x1_0000;
      }
      buffer := buffer + p.header + p.data;
      SameBytes(old(View()), p, buffer);
      var ok := UsbSend(buffer, first, second);
      res := if ok then total else -1;
    }
  }

  lemma SameBytes(d: Dev, p: Packet, buffer: seq<byte>)
    requires Acceptable(d, p)
    requires var n := Numbered(d, p);
             buffer == (if d.version >= 2 then
                          Be32(p.proto) + Be32(Total(d, p)) + Be32(MAGIC) + Be16(n.txSeq) + Be16(n.rxSeq)
                        else Be32(p.proto) + Be32(Total(d, p))) + p.header + p.data
    ensures buffer == Bytes(d, p)
  {
    hide Be32, Be16;
    if d.version >= 2 {
      var n := Numbered(d, p);
      assert Be32(p.proto) + Be32(Total(d, p)) + Be32(MAGIC) + Be16(n.txSeq) + Be16(n.rxSeq)
          == Be32(p.proto) + Be32(Total(d, p)) + (Be32(MAGIC) + Be16(n.txSeq) + Be16(n.rxSeq));
    }
  }
}
