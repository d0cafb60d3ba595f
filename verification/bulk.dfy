/**
  Bulk transfers over USB. `usb_send` (src/usb.c) submits a packet as one transfer, and a
  zero-length transfer after it when the packet fills its last bus packet; the receiving end
  of an endpoint takes a bus packet shorter than the maximum as the end of a transfer
  (section 5.8.3 of the USB 2.0 specification).
 */
module Bulk {
  import opened Words
  import opened Reassembly

  /** The transfers `usb_send` submits for `buf` on an endpoint with maximum packet size `w`. */
  function Submitted(buf: seq<byte>, w: nat): seq<seq<byte>>
    requires w > 0
  {
    if |buf| % w == 0 then [buf, []] else [buf]
  }

  /** The bus packets of one transfer: full ones, then what is left; an empty transfer is one empty packet. */
  function BusPackets(t: seq<byte>, w: nat): seq<seq<byte>>
    requires w > 0
  {
    if |t| <= w then [t] else [t[..w]] + BusPackets(t[w..], w)
  }

  function BusAll(ts: seq<seq<byte>>, w: nat): seq<seq<byte>>
    requires w > 0
  {
    if ts == [] then [] else BusPackets(ts[0], w) + BusAll(ts[1..], w)
  }

  /** Everything on the bus when `usb_send` is called for each of `bufs`. */
  function Wire(bufs: seq<seq<byte>>, w: nat): seq<seq<byte>>
    requires w > 0
  {
    if bufs == [] then [] else BusAll(Submitted(bufs[0], w), w) + Wire(bufs[1..], w)
  }

  /** The other end: `acc` is the transfer in progress. */
  function Receive(acc: seq<byte>, pkts: seq<seq<byte>>, w: nat): seq<seq<byte>>
    decreases |pkts|
  {
    if pkts == [] then []
    else if |pkts[0]| < w then [acc + pkts[0]] + Receive([], pkts[1..], w)
    else Receive(acc + pkts[0], pkts[1..], w)
  }

  /** Full packets and then a short one: the shape that marks exactly one boundary. */
  function Framed(buf: seq<byte>, w: nat): seq<seq<byte>>
    requires w > 0
  {
    if |buf| < w then [buf] else [buf[..w]] + Framed(buf[w..], w)
  }

  lemma {:induction false} TimesMonotone(a: nat, b: nat, w: nat)
    requires a < b
    ensures a * w + w <= b * w
  {
    var d := b - a - 1;
    assert b == a + 1 + d;
    assert (a + 1 + d) * w == a * w + w + d * w;
  }

  lemma {:induction false} Remainder(w: nat, q: nat, r: nat, q': nat, r': nat)
    requires r < w && r' < w && q * w + r == q' * w + r'
    ensures r == r'
  {
    if q < q' {
      TimesMonotone(q, q', w);
    } else if q' < q {
      TimesMonotone(q', q, w);
    }
  }

  lemma {:induction false} DropMod(n: nat, w: nat)
    requires 0 < w <= n
    ensures (n - w) % w == n % w
  {
    var q := (n - w) / w;
    assert (q + 1) * w == q * w + w;
    Remainder(w, q + 1, (n - w) % w, n / w, n % w);
  }

  /** With the zero-length packet, every non-empty packet is framed. */
  lemma {:induction false} SubmittedFramed(buf: seq<byte>, w: nat)
    requires w > 0 && buf != []
    ensures BusAll(Submitted(buf, w), w) == Framed(buf, w)
  {
    FramedPackets(buf, w);
    var e: seq<byte> := [];
    var none: seq<seq<byte>> := [];
    assert [buf][1..] == none && [buf, e][1..] == [e] && [e][1..] == none;
    assert BusAll([e], w) == [e];
  }

  lemma {:induction false} FramedPackets(buf: seq<byte>, w: nat)
    requires w > 0 && buf != []
    ensures Framed(buf, w) == BusPackets(buf, w) + (if |buf| % w == 0 then [[]] else [])
  {
    if |buf| == w {
      assert buf[..w] == buf && buf[w..] == [];
      assert w % w == 0;
      assert Framed(buf[w..], w) == [[]];
    } else if |buf| > w {
      DropMod(|buf|, w);
      FramedPackets(buf[w..], w);
    }
  }

  /** A framed packet is received as one transfer, whatever came before in the same transfer. */
  lemma {:induction false} ReceiveFramed(acc: seq<byte>, buf: seq<byte>, rest: seq<seq<byte>>, w: nat)
    requires w > 0
    ensures Receive(acc, Framed(buf, w) + rest, w) == [acc + buf] + Receive([], rest, w)
    decreases |buf|
  {
    var f := Framed(buf, w) + rest;
    if |buf| < w {
      assert f[0] == buf && f[1..] == rest;
    } else {
      assert f[0] == buf[..w] && f[1..] == Framed(buf[w..], w) + rest;
      ReceiveFramed(acc + buf[..w], buf[w..], rest, w);
      assert acc + buf[..w] + buf[w..] == acc + buf;
    }
  }

  /** An empty packet comes out as two empty transfers. */
  function Doubled(bufs: seq<seq<byte>>): (ds: seq<seq<byte>>)
    ensures |ds| >= |bufs|
    ensures ds == bufs <==> [] !in bufs
  {
    if bufs == [] then []
    else if bufs[0] == [] then
      assert |Doubled(bufs[1..])| >= |bufs| - 1;
      [[], []] + Doubled(bufs[1..])
    else
      var ds := [bufs[0]] + Doubled(bufs[1..]);
      assert ds[1..] == Doubled(bufs[1..]);
      assert bufs == [bufs[0]] + bufs[1..];
      ds
  }

  lemma {:induction false} ReceiveWire(bufs: seq<seq<byte>>, w: nat)
    requires w > 0
    ensures Receive([], Wire(bufs, w), w) == Doubled(bufs)
  {
    if bufs != [] {
      var b, rest := bufs[0], Wire(bufs[1..], w);
      ReceiveWire(bufs[1..], w);
      if b != [] {
        SubmittedFramed(b, w);
        ReceiveFramed([], b, rest, w);
        assert [] + b == b;
      } else {
        EmptyPacket(rest, w);
        assert b == [];
      }
    }
  }

  lemma EmptyPacket(rest: seq<seq<byte>>, w: nat)
    requires w > 0
    ensures Receive([], BusAll(Submitted([], w), w) + rest, w) == [[], []] + Receive([], rest, w)
  {
    var e: seq<byte> := [];
    var none: seq<seq<byte>> := [];
    assert 0 % w == 0;
    assert [e, e][1..] == [e] && [e][1..] == none;
    assert BusAll([e], w) == [e];
    assert BusAll([e, e], w) == [e, e];
    var f := [e, e] + rest;
    assert f[0] == e && f[1..] == [e] + rest;
    assert f[1..][0] == e && f[1..][1..] == rest;
    assert e + e == e;
    assert Receive([], f[1..], w) == [e] + Receive([], rest, w);
    assert Receive([], f, w) == [e] + Receive([], f[1..], w);
  }

  /**
    The zero-length packet rule is right: what arrives is what was sent, packet by packet, exactly
    when no packet is empty; every packet `send_packet` builds holds a header.
   */
  lemma BoundariesKept(bufs: seq<seq<byte>>, w: nat)
    requires w > 0
    ensures Receive([], Wire(bufs, w), w) == bufs <==> [] !in bufs
  {
    ReceiveWire(bufs, w);
  }

  // ---------------------------------------------------------------- reads of limited size

  /** The completions of successive read transfers of USB_MRU bytes; `acc` is in the current one. */
  function Reads(acc: seq<byte>, pkts: seq<seq<byte>>, w: nat): seq<seq<byte>>
    decreases |pkts|
  {
    if pkts == [] then [] else
    var a := acc + pkts[0];
    if |pkts[0]| < w || |a| == USB_MRU then [a] + Reads([], pkts[1..], w) else Reads(a, pkts[1..], w)
  }

  /** The non-empty ones among `ts`. */
  function NonEmpty(ts: seq<seq<byte>>): seq<seq<byte>> {
    if ts == [] then [] else (if ts[0] == [] then [] else [ts[0]]) + NonEmpty(ts[1..])
  }

  /** The pieces of a packet, none for nothing. */
  function Pieces(p: seq<byte>): seq<seq<byte>> {
    if p == [] then [] else Cut(p)
  }

  /** Reading a framed packet gives its pieces of USB_MRU bytes, and perhaps an empty read. */
  lemma {:induction false} ReadFramed(acc: seq<byte>, buf: seq<byte>, rest: seq<seq<byte>>, w: nat)
    requires w > 0 && |acc| < USB_MRU && (USB_MRU - |acc|) % w == 0
    requires USB_MRU % w == 0
    ensures NonEmpty(Reads(acc, Framed(buf, w) + rest, w)) == Pieces(acc + buf) + NonEmpty(Reads([], rest, w))
    decreases |buf|
  {
    var f := Framed(buf, w) + rest;
    var gap := USB_MRU - |acc|;
    GapAtLeast(gap, w);
    if |buf| < w {
      assert f[0] == buf && f[1..] == rest;
      ConsRead(acc + buf, Reads([], rest, w));
    } else {
      var a := acc + buf[..w];
      assert f[0] == buf[..w] && f[1..] == Framed(buf[w..], w) + rest;
      assert a + buf[w..] == acc + buf;
      if |a| == USB_MRU {
        assert Reads(acc, f, w) == [a] + Reads([], f[1..], w);
        ReadFramed([], buf[w..], rest, w);
        assert [] + buf[w..] == buf[w..];
        FullRead(acc + buf, a, buf[w..], Reads([], f[1..], w), NonEmpty(Reads([], rest, w)));
      } else {
        DropMod(gap, w);
        ReadFramed(a, buf[w..], rest, w);
      }
    }
  }

  lemma GapAtLeast(gap: nat, w: nat)
    requires w > 0 && gap > 0 && gap % w == 0
    ensures gap >= w
  {
  }

  lemma ConsRead(a: seq<byte>, rs: seq<seq<byte>>)
    ensures NonEmpty([a] + rs) == (if a == [] then [] else [a]) + NonEmpty(rs)
  {
    assert ([a] + rs)[1..] == rs;
  }

  lemma PiecesSplit(p: seq<byte>)
    requires |p| >= USB_MRU
    ensures Pieces(p) == [p[..USB_MRU]] + Pieces(p[USB_MRU..])
  {
    if |p| == USB_MRU {
      assert p[..USB_MRU] == p;
    }
  }

  ghost predicate NoneEmpty(bufs: seq<seq<byte>>) {
    forall i :: 0 <= i < |bufs| ==> bufs[i] != []
  }

  /** A packet that ends at a multiple of USB_MRU needs no empty packet behind it: the read is full anyway. */
  lemma {:induction false} ReadUnframed(acc: seq<byte>, buf: seq<byte>, rest: seq<seq<byte>>, w: nat)
    requires w > 0 && |acc| < USB_MRU && (USB_MRU - |acc|) % w == 0
    requires USB_MRU % w == 0 && buf != [] && |buf| % w == 0 && (|acc| + |buf|) % USB_MRU == 0
    ensures NonEmpty(Reads(acc, BusPackets(buf, w) + rest, w)) == Pieces(acc + buf) + NonEmpty(Reads([], rest, w))
    decreases |buf|
  {
    var f := BusPackets(buf, w) + rest;
    var gap := USB_MRU - |acc|;
    GapAtLeast(gap, w);
    GapAtLeast(|buf|, w);
    if |buf| <= w {
      assert f[0] == buf && f[1..] == rest;
      GapAtLeast(|acc| + |buf|, USB_MRU);
      ConsRead(acc + buf, Reads([], rest, w));
    } else {
      hide NonEmpty, Pieces;
      var a, next := acc + buf[..w], BusPackets(buf[w..], w) + rest;
      assert f[0] == buf[..w] && f[1..] == next;
      assert a + buf[w..] == acc + buf;
      DropMod(|buf|, w);
      if |a| == USB_MRU {
        assert Reads(acc, f, w) == [a] + Reads([], next, w);
        DropMod(|acc| + |buf|, USB_MRU);
        ReadUnframed([], buf[w..], rest, w);
        assert [] + buf[w..] == buf[w..];
        FullRead(acc + buf, a, buf[w..], Reads([], next, w), NonEmpty(Reads([], rest, w)));
      } else {
        assert Reads(acc, f, w) == Reads(a, next, w);
        DropMod(gap, w);
        ReadUnframed(a, buf[w..], rest, w);
      }
    }
  }

  /** A read that is full is the first piece of what is being read. */
  lemma FullRead(p: seq<byte>, a: seq<byte>, b: seq<byte>, rs: seq<seq<byte>>, more: seq<seq<byte>>)
    requires |a| == USB_MRU && p == a + b && NonEmpty(rs) == Pieces(b) + more
    ensures NonEmpty([a] + rs) == Pieces(p) + more
  {
    ConsRead(a, rs);
    PiecesSplit(p);
    assert p[..USB_MRU] == a && p[USB_MRU..] == b;
  }

  /** The bus packets of a packet, and an empty one behind it if it fills the last of them and `zlp` holds. */
  function Sent(buf: seq<byte>, zlp: bool, w: nat): seq<seq<byte>>
    requires w > 0
  {
    BusPackets(buf, w) + (if |buf| % w == 0 && zlp then [[]] else [])
  }

  /** A device that sends `bufs`; `zlps` says where it puts the empty packet. */
  function DeviceWire(bufs: seq<seq<byte>>, zlps: seq<bool>, w: nat): seq<seq<byte>>
    requires w > 0 && |bufs| == |zlps|
  {
    if bufs == [] then [] else Sent(bufs[0], zlps[0], w) + DeviceWire(bufs[1..], zlps[1..], w)
  }

  /** It leaves the empty packet out at most where the reader's buffer is full anyway. */
  ghost predicate Terminated(bufs: seq<seq<byte>>, zlps: seq<bool>) {
    |bufs| == |zlps| && forall i :: 0 <= i < |bufs| ==> zlps[i] || |bufs[i]| % USB_MRU == 0
  }

  /** Reading everything that was sent gives the pieces of every packet, in order. */
  lemma {:induction false} ReadWire(bufs: seq<seq<byte>>, zlps: seq<bool>, w: nat)
    requires w > 0 && USB_MRU % w == 0 && NoneEmpty(bufs) && Terminated(bufs, zlps)
    ensures NonEmpty(Reads([], DeviceWire(bufs, zlps, w), w)) == CutAll(bufs)
  {
    if bufs != [] {
      var buf, rest := bufs[0], DeviceWire(bufs[1..], zlps[1..], w);
      ReadWire(bufs[1..], zlps[1..], w);
      FramedPackets(buf, w);
      assert [] + buf == buf;
      if |buf| % w == 0 && !zlps[0] {
        ReadUnframed([], buf, rest, w);
        assert Sent(buf, zlps[0], w) == BusPackets(buf, w);
      } else {
        ReadFramed([], buf, rest, w);
      }
    }
  }

  /** The host's own `usb_send` is such a sender. */
  lemma {:induction false} WireTerminated(bufs: seq<seq<byte>>, w: nat)
    requires w > 0 && NoneEmpty(bufs)
    ensures var zlps := seq(|bufs|, _ => true);
            Terminated(bufs, zlps) && Wire(bufs, w) == DeviceWire(bufs, zlps, w)
  {
    var zlps := seq(|bufs|, _ => true);
    if bufs != [] {
      WireTerminated(bufs[1..], w);
      assert zlps[1..] == seq(|bufs| - 1, _ => true);
      SubmittedFramed(bufs[0], w);
      FramedPackets(bufs[0], w);
    }
  }

  /** Transfers that completed with contents `rs`. */
  ghost predicate Completions(ts: seq<Transfer>, rs: seq<seq<byte>>) {
    && |ts| == |rs| && AllSane(ts)
    && forall i :: 0 <= i < |ts| ==> ts[i].Content() == rs[i]
  }

  lemma {:induction false} CompletedContents(ts: seq<Transfer>, rs: seq<seq<byte>>)
    requires Completions(ts, rs)
    ensures Contents(ts) == NonEmpty(rs)
  {
    if ts != [] {
      assert ts[0].Content() == rs[0];
      CompletedContents(ts[1..], rs[1..]);
    }
  }

  /**
    From the device to the dispatcher: well-formed packets, framed by the rule above, cut into bus
    packets of any size dividing USB_MRU and read in transfers of USB_MRU bytes, are reassembled into
    exactly those packets.
   */
  lemma {:induction false} DeviceToHost(bufs: seq<seq<byte>>, zlps: seq<bool>, w: nat, ts: seq<Transfer>)
    requires w > 0 && USB_MRU % w == 0 && AllWellFormed(bufs) && Terminated(bufs, zlps)
    requires Completions(ts, Reads([], DeviceWire(bufs, zlps, w), w))
    ensures Run([], ts) == Outcome([], bufs)
  {
    CompletedContents(ts, Reads([], DeviceWire(bufs, zlps, w), w));
    assert NoneEmpty(bufs) by {
      forall i | 0 <= i < |bufs| ensures bufs[i] != [] {
        assert WellFormed(bufs[i]);
      }
    }
    ReadWire(bufs, zlps, w);
    RoundTrip(bufs, ts);
  }
}
