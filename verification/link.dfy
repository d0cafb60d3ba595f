/**
  Two parties: one host connection (module `Transport`), the device at the other end, and the
  FIFO pipe between them. The device is a TCP endpoint with 32-bit counters and initial
  sequence number 0 that keeps its unacknowledged data within the last window it was given
  (sections 3.4 and 3.8.6 of RFC 9293, with the windows scaled by 8 bits as in section 2.3
  of RFC 7323). Runs are arbitrary interleavings of `Event`s.
 */
module Link {
  import opened Words
  import opened Transport

  datatype Phase = Closed | Open | Reset

  /**
    `sndNxt`, `sndUna`, `sndWnd`, `rcvNxt` are what the device computes with. `sent` and `rcvd`
    are the byte streams it has sent and accepted; `una` and `edge` are the unbounded values
    of the last acknowledgement it saw and of the largest right window edge it ever offered.
   */
  datatype Peer = Peer(phase: Phase, sndNxt: u32, sndUna: u32, sndWnd: nat, rcvNxt: u32,
                       sent: seq<byte>, rcvd: seq<byte>, una: nat, edge: nat, rejected: bool)

  /**
    `toDevice` and `toHost` are the segments in flight, with the unbounded values of their
    acknowledgement numbers in `acksOut` and `acksIn`. `accepted`, `delivered` and `taken` are
    the streams accepted from the device, written to the client, and read from the client;
    `acked` and `heard` are the unbounded values of the last acknowledgement sent and received.
   */
  datatype State = State(c: Conn, live: bool, writable: bool, overflowed: bool, peer: Peer,
                         toDevice: seq<Segment>, acksOut: seq<nat>,
                         toHost: seq<Segment>, acksIn: seq<nat>,
                         accepted: seq<byte>, delivered: seq<byte>, taken: seq<byte>,
                         acked: nat, heard: nat)

  datatype Event =
    | PeerTakes(win: u16)
    | PeerSends(data: seq<byte>, win: u16)
    | PeerResets(reason: seq<byte>)
    | HostTakes(ok: bool, now: nat, writes: seq<Write>)
    | ClientOpens
    | ClientReady(ev: Mask, wrote: int, got: Got, ok: bool, now: nat, writes: seq<Write>)
    | AckTimer(ok: bool, now: nat, writes: seq<Write>)
    | HostCloses(writes: seq<Write>)

  /** The state right after `device_start_connect`: the SYN is in the pipe. */
  function Start(sport: u16, dport: u16, now: nat): State {
    var c := Opening(sport, dport);
    State(AfterSend(c, now), true, false, false,
          Peer(Closed, 0, 0, 0, 0, [], [], 0, 0, false),
          [Outgoing(c, {SYN}, [])], [0], [], [], [], [], [], 0, 0)
  }

  // ---------------------------------------------------------------- device

  /** Put a segment of the device into the pipe; its window may move the right edge. */
  function PeerEmit(l: State, p: Peer, s: Segment): State {
    var ack := 1 + |p.rcvd|;
    l.(peer := p.(edge := Max(p.edge, ack + s.win * 256)), toHost := l.toHost + [s], acksIn := l.acksIn + [ack])
  }

  /** The device reads the next segment: a SYN is answered, an ACK updates its send window and
      its data is accepted if it starts at `rcvNxt` and ends inside the window offered. */
  function PeerTake(l: State, win: u16): State
    requires |l.toDevice| == |l.acksOut|
  {
    if l.toDevice == [] then l else
    var s, ack, p := l.toDevice[0], l.acksOut[0], l.peer;
    var l := l.(toDevice := l.toDevice[1..], acksOut := l.acksOut[1..]);
    if SYN in s.flags then
      if p.phase != Closed then l else
      var p := p.(phase := Open, sndNxt := 1, sndUna := s.ackno, una := ack, sndWnd := s.win * 256,
                  rcvNxt := Add32(s.seqno, 1));
      PeerEmit(l, p, Segment(l.c.dport, l.c.sport, 0, p.rcvNxt, {SYN, ACK}, win, []))
    else if p.phase != Open then l
    else
      var fits := s.seqno == p.rcvNxt && |s.payload| <= Sub32(Wrap(p.edge), p.rcvNxt);
      var p := p.(sndUna := s.ackno, una := ack, sndWnd := s.win * 256);
      if fits then l.(peer := p.(rcvNxt := Add32(p.rcvNxt, |s.payload|), rcvd := p.rcvd + s.payload))
      else l.(peer := p.(rejected := true))
  }

  /** The device's own flow control, on its 32-bit counters. */
  predicate MaySend(p: Peer, n: nat) {
    p.phase == Open && Sub32(p.sndNxt, p.sndUna) + n <= p.sndWnd
  }

  function PeerSend(l: State, data: seq<byte>, win: u16): State {
    if !MaySend(l.peer, |data|) then l else
    var p := l.peer.(sndNxt := Add32(l.peer.sndNxt, |data|), sent := l.peer.sent + data);
    PeerEmit(l, p, Segment(l.c.dport, l.c.sport, l.peer.sndNxt, p.rcvNxt, {ACK}, win, data))
  }

  function PeerReset(l: State, reason: seq<byte>): State {
    if l.peer.phase == Reset then l else
    PeerEmit(l, l.peer.(phase := Reset), Segment(l.c.dport, l.c.sport, l.peer.sndNxt, l.peer.rcvNxt, {RST}, 0, reason))
  }

  // ---------------------------------------------------------------- host

  function Emit(l: State, out: seq<Segment>, ack: nat): State {
    l.(toDevice := l.toDevice + out, acksOut := l.acksOut + seq(|out|, _ => ack),
       acked := if out == [] then l.acked else ack)
  }

  /** `connection_teardown`: what the flush loop hands over is delivered, the rest is lost. */
  function Teardown(l: State, c: Conn, writes: seq<Write>): State {
    var n := Flushed(c, l.writable, writes);
    l.(c := c.(ib := c.ib[n..], state := Dead), live := false, delivered := l.delivered + c.ib[..n])
  }

  function HostTake(l: State, ok: bool, now: nat, writes: seq<Write>): State
    requires |l.toHost| == |l.acksIn| && l.c.txWin < U16 * 256
  {
    if l.toHost == [] then l else
    var s, ack := l.toHost[0], l.acksIn[0];
    var l := l.(toHost := l.toHost[1..], acksIn := l.acksIn[1..], heard := ack,
        accepted := l.accepted + Accepted(l.c, s));
    var r := SegmentIn(l.c, s, ok, now);
    match r.verdict
    case Keep =>
      Emit(l.(c := r.c), r.out, 1 + |l.delivered|)
    case Established =>
      Emit(l.(c := r.c), r.out, 1)
    case Drop =>
      Teardown(l, r.c, writes)
    case Overflow =>
      Teardown(l.(overflowed := true), r.c, writes)
  }

  function ClientStep(l: State, ev: Mask, wrote: int, got: Got, ok: bool, now: nat, writes: seq<Write>): State
    requires l.c.txWin < U16 * 256
  {
    if !l.writable then l else
    var t := ClientTurn(l.c, ev, wrote, got, ok, now);
    var l' := l.(delivered := l.delivered + l.c.ib[..Min(t.written, |l.c.ib|)], taken := l.taken + t.taken);
    if t.keep then Emit(l'.(c := t.c), t.out, 1 + |l'.delivered|)
    else Teardown(l', t.c, writes)
  }

  function AckStep(l: State, ok: bool, now: nat, writes: seq<Write>): State
    requires l.c.txWin < U16 * 256
  {
    if !(l.c.state == Connected && l.c.ackPending) then l else
    var r := AckTurn(l.c, ok, now);
    if r.verdict.Drop? then Teardown(l, r.c, writes)
    else Emit(l.(c := r.c), r.out, 1 + |l.delivered|)
  }

  /** Every segment in flight has its unbounded acknowledgement beside it, and the window fits its field. */
  ghost predicate Shaped(l: State) {
    |l.toDevice| == |l.acksOut| && |l.toHost| == |l.acksIn| && l.c.txWin < U16 * 256
  }

  /** One step of the pair; once the connection is torn down the run is over. */
  ghost function Step(l: State, e: Event): State
    requires Shaped(l)
  {
    if !l.live then l else
    match e
    case PeerTakes(win) => PeerTake(l, win)
    case PeerSends(data, win) => PeerSend(l, data, win)
    case PeerResets(reason) => PeerReset(l, reason)
    case HostTakes(ok, now, ws) => HostTake(l, ok, now, ws)
    case ClientOpens => if l.c.state == Connected then l.(writable := true) else l
    case ClientReady(ev, wrote, got, ok, now, ws) => ClientStep(l, ev, wrote, got, ok, now, ws)
    case AckTimer(ok, now, ws) => AckStep(l, ok, now, ws)
    case HostCloses(ws) => Teardown(l, l.c, ws)
  }

  lemma ReactionWindow(c: Conn, s: Segment, ok: bool, now: nat)
    requires c.txWin < U16 * 256
    ensures SegmentIn(c, s, ok, now).c.txWin == c.txWin
  {
  }

  lemma TurnWindow(c: Conn, ev: Mask, wrote: int, got: Got, ok: bool, now: nat)
    requires c.txWin < U16 * 256
    ensures ClientTurn(c, ev, wrote, got, ok, now).c.txWin == c.txWin
  {
  }

  lemma PeerShaped(l: State, win: u16, data: seq<byte>)
    requires Shaped(l)
    ensures Shaped(PeerTake(l, win)) && Shaped(PeerSend(l, data, win)) && Shaped(PeerReset(l, data))
  {
  }

  lemma HostShaped(l: State, ok: bool, now: nat, writes: seq<Write>)
    requires Shaped(l)
    ensures Shaped(HostTake(l, ok, now, writes)) && Shaped(Teardown(l, l.c, writes))
  {
    hide SegmentIn, Flushed;
    if l.toHost != [] {
      ReactionWindow(l.c, l.toHost[0], ok, now);
    }
  }

  lemma ClientShaped(l: State, ev: Mask, wrote: int, got: Got, ok: bool, now: nat, writes: seq<Write>)
    requires Shaped(l)
    ensures Shaped(ClientStep(l, ev, wrote, got, ok, now, writes))
  {
    hide ClientTurn, Flushed;
    TurnWindow(l.c, ev, wrote, got, ok, now);
  }

  lemma AckShaped(l: State, ok: bool, now: nat, writes: seq<Write>)
    requires Shaped(l)
    ensures Shaped(AckStep(l, ok, now, writes))
  {
    hide Flushed;
  }

  lemma StepShaped(l: State, e: Event)
    requires Shaped(l)
    ensures Shaped(Step(l, e))
  {
    hide PeerTake, PeerSend, PeerReset, HostTake, ClientStep, AckStep, Teardown;
    match e
    case PeerTakes(win) => PeerShaped(l, win, []);
    case PeerSends(data, win) => PeerShaped(l, win, data);
    case PeerResets(reason) => PeerShaped(l, 0, reason);
    case HostTakes(ok, now, ws) => HostShaped(l, ok, now, ws);
    case ClientOpens =>
    case ClientReady(ev, wrote, got, ok, now, ws) => ClientShaped(l, ev, wrote, got, ok, now, ws);
    case AckTimer(ok, now, ws) => AckShaped(l, ok, now, ws);
    case HostCloses(ws) => HostShaped(l, false, 0, ws);
  }

  // ---------------------------------------------------------------- queues

  /** The bytes carried by the data segments of a queue. */
  function Data(q: seq<Segment>): seq<byte> {
    if q == [] then [] else (if q[0].flags == {ACK} then q[0].payload else []) + Data(q[1..])
  }

  /**
    Segments on their way to the device: sequence numbers continue one another from offset
    `off` of the stream with no gap or overlap, and acknowledgements rise from `lo` to `hi`.
   */
  ghost predicate Outbound(q: seq<Segment>, acks: seq<nat>, off: nat, lo: nat, hi: nat) {
    |q| == |acks| && lo <= hi &&
    (q == [] ==> lo == hi) &&
    (q != [] ==>
      && q[0].flags == {ACK}
      && q[0].seqno == Wrap(1 + off)
      && q[0].ackno == Wrap(acks[0])
      && q[0].win * 256 == TX_WINDOW
      && lo <= acks[0]
      && Outbound(q[1..], acks[1..], off + |q[0].payload|, acks[0], hi))
  }

  /** A segment that says what the device has received and keeps its window below `edge`. */
  ghost predicate Honest(s: Segment, ack: nat, edge: nat) {
    s.ackno == Wrap(ack) && ack + s.win * 256 <= edge
  }

  /** Segments on their way to the host after the handshake: data, then at most a reset. */
  ghost predicate Inbound(q: seq<Segment>, acks: seq<nat>, lo: nat, hi: nat, edge: nat) {
    |q| == |acks| && lo <= hi &&
    (q != [] ==>
      && (RST in q[0].flags || (q[0].flags == {ACK} && Honest(q[0], acks[0], edge)))
      && lo <= acks[0]
      && Inbound(q[1..], acks[1..], acks[0], hi, edge))
  }

  lemma {:induction false} DataAppend(q: seq<Segment>, s: Segment)
    ensures Data(q + [s]) == Data(q) + (if s.flags == {ACK} then s.payload else [])
  {
    if q == [] {
      assert (q + [s])[1..] == [];
    } else {
      assert (q + [s])[1..] == q[1..] + [s];
      DataAppend(q[1..], s);
    }
  }

  lemma {:induction false} OutboundAppend(q: seq<Segment>, acks: seq<nat>, off: nat, lo: nat, hi: nat, s: Segment,
                                          ack: nat)
    requires Outbound(q, acks, off, lo, hi)
    requires s.flags == {ACK} && s.seqno == Wrap(1 + off + |Data(q)|) && s.ackno == Wrap(ack)
    requires s.win * 256 == TX_WINDOW && hi <= ack
    ensures Outbound(q + [s], acks + [ack], off, lo, ack)
  {
    if q == [] {
      assert (q + [s])[1..] == [] && (acks + [ack])[1..] == [];
    } else {
      assert (q + [s])[1..] == q[1..] + [s] && (acks + [ack])[1..] == acks[1..] + [ack];
      OutboundAppend(q[1..], acks[1..], off + |q[0].payload|, acks[0], hi, s, ack);
    }
  }

  /** The bounds of a queue may be relaxed: the device received more, or offered more. */
  lemma {:induction false} InboundRelax(q: seq<Segment>, acks: seq<nat>, lo: nat, hi: nat, edge: nat, hi': nat,
                                        edge': nat)
    requires Inbound(q, acks, lo, hi, edge) && hi <= hi' && edge <= edge'
    ensures Inbound(q, acks, lo, hi', edge')
  {
    if q != [] {
      InboundRelax(q[1..], acks[1..], acks[0], hi, edge, hi', edge');
    }
  }

  lemma {:induction false} InboundAppend(q: seq<Segment>, acks: seq<nat>, lo: nat, hi: nat, edge: nat, s: Segment)
    requires Inbound(q, acks, lo, hi, edge)
    requires RST in s.flags || (s.flags == {ACK} && Honest(s, hi, edge))
    ensures Inbound(q + [s], acks + [hi], lo, hi, edge)
  {
    if q == [] {
      assert (q + [s])[1..] == [] && (acks + [hi])[1..] == [];
    } else {
      assert (q + [s])[1..] == q[1..] + [s] && (acks + [hi])[1..] == acks[1..] + [hi];
      InboundAppend(q[1..], acks[1..], acks[0], hi, edge, s);
    }
  }

  // ---------------------------------------------------------------- invariant

  /** What the fields of the host connection mean in terms of the streams. */
  ghost predicate HostFacts(l: State) {
    && l.c.txWin == TX_WINDOW
    && l.accepted == l.delivered + l.c.ib
    && (l.writable ==> l.c.state == Connected)
    && (l.c.state == Connecting ==>
          && l.c.txSeq == 0 && l.c.txAck == 0 && l.c.txAcked == 0 && !l.c.ackPending && l.c.ib == []
          && l.acked == 0 && l.accepted == [] && l.taken == [] && l.heard == 0)
    && (l.c.state == Connected ==>
          && Settled(l.c)
          && l.c.txSeq == Wrap(1 + |l.taken|)
          && l.c.txAck == Wrap(1 + |l.delivered|)
          && l.c.txAcked == Wrap(l.acked)
          && l.c.rxRecvd == Wrap(|l.accepted|)
          && l.c.rxAck == Wrap(l.heard)
          && l.c.rxWin <= MAX_WINDOW
          && l.acked <= 1 + |l.delivered|
          && l.heard <= 1 + |l.peer.rcvd|
          && 1 + |l.taken| <= l.heard + MAX_WINDOW
          && l.heard + l.c.rxWin <= l.peer.edge)
  }

  /** What the device's counters mean in terms of the streams. */
  ghost predicate PeerFacts(l: State) {
    var p := l.peer;
    && !p.rejected
    && p.rcvd <= l.taken
    && 0 <= 1 + |p.sent| - p.una <= TX_WINDOW
    && p.una <= l.acked
    && (p.phase == Closed ==> l.c.state == Connecting && p.sent == [] && p.edge == 0 && p.una == 0)
    && (p.phase == Open ==>
          && p.sndNxt == Wrap(1 + |p.sent|)
          && p.sndUna == Wrap(p.una)
          && p.sndWnd == TX_WINDOW
          && p.rcvNxt == Wrap(1 + |p.rcvd|)
          && 1 + |l.taken| <= p.edge <= 1 + |p.rcvd| + MAX_WINDOW)
  }

  /** What is on its way to the device. */
  ghost predicate OutFacts(l: State) {
    && |l.toDevice| == |l.acksOut|
    && (l.peer.phase == Closed ==>
          l.toDevice == [Outgoing(Opening(l.c.sport, l.c.dport), {SYN}, [])] && l.acksOut == [0])
    && (l.peer.phase == Open && l.c.state == Connecting ==> l.toDevice == [])
    && (l.peer.phase == Open && l.c.state == Connected ==>
          && l.peer.rcvd + Data(l.toDevice) == l.taken
          && Outbound(l.toDevice, l.acksOut, |l.peer.rcvd|, l.peer.una, l.acked))
  }

  /** What is on its way to the host; the SYN-ACK comes first while the handshake lasts. */
  ghost predicate InFacts(l: State) {
    && |l.toHost| == |l.acksIn|
    && l.accepted + Data(l.toHost) == l.peer.sent
    && (l.peer.phase == Closed ==> l.toHost == [])
    && (l.c.state == Connecting && l.peer.phase == Open ==> l.toHost != [] && RST !in l.toHost[0].flags)
    && (l.c.state == Connecting && l.toHost != [] && RST !in l.toHost[0].flags ==>
          && l.toHost[0].flags == {SYN, ACK} && l.toHost[0].seqno == 0 && l.toHost[0].payload == []
          && l.acksIn[0] == 1 && Honest(l.toHost[0], 1, l.peer.edge)
          && Inbound(l.toHost[1..], l.acksIn[1..], 1, 1 + |l.peer.rcvd|, l.peer.edge))
    && (l.c.state == Connected ==>
          Inbound(l.toHost, l.acksIn, l.heard, 1 + |l.peer.rcvd|, l.peer.edge))
  }

  /** The inductive invariant of the pair. */
  ghost predicate Inv(l: State) {
    if l.live then
      && l.c.state in {Connecting, Connected}
      && !l.overflowed && HostFacts(l) && PeerFacts(l) && OutFacts(l) && InFacts(l)
    else
      && !l.overflowed && !l.peer.rejected && l.c.txWin == TX_WINDOW
      && |l.toDevice| == |l.acksOut| && |l.toHost| == |l.acksIn|
      && l.accepted == l.delivered + l.c.ib && l.accepted <= l.peer.sent
      && |l.c.ib| <= TX_WINDOW && l.peer.rcvd <= l.taken
  }

  // ---------------------------------------------------------------- the device's steps

  lemma SynTakeKeeps(l: State, win: u16)
    requires l.live && Inv(l) && l.peer.phase == Closed
    ensures Inv(PeerTake(l, win))
  {
    var l' := PeerTake(l, win);
    assert l'.toHost == [Segment(l.c.dport, l.c.sport, 0, 1, {SYN, ACK}, win, [])];
    assert Data(l'.toHost) == [];
  }

  /** Everything the host sends tiles the stream and fits the window: the device accepts it. */
  lemma {:induction false} DataTakeFits(l: State)
    requires l.live && Inv(l) && l.peer.phase == Open && l.toDevice != []
    ensures l.c.state == Connected
    ensures l.toDevice[0].flags == {ACK} && l.toDevice[0].seqno == l.peer.rcvNxt
    ensures |l.toDevice[0].payload| <= Sub32(Wrap(l.peer.edge), l.peer.rcvNxt)
    ensures l.taken == (l.peer.rcvd + l.toDevice[0].payload) + Data(l.toDevice[1..])
    ensures l.peer.rcvd + l.toDevice[0].payload <= l.taken
    ensures l.peer.una <= l.acksOut[0] <= l.acked <= 1 + |l.peer.sent|
  {
    WrapSub(l.peer.edge, 1 + |l.peer.rcvd|);
    assert l.taken == l.peer.rcvd + (l.toDevice[0].payload + Data(l.toDevice[1..]));
    assert Outbound(l.toDevice[1..], l.acksOut[1..], |l.peer.rcvd| + |l.toDevice[0].payload|, l.acksOut[0], l.acked);
    assert |l.peer.sent| == |l.accepted| + |Data(l.toHost)|;
  }

  /** What the device holds after taking one more segment. */
  function Held(p: Peer, ackno: u32, ack: nat, data: seq<byte>): Peer {
    p.(sndUna := ackno, una := ack, sndWnd := TX_WINDOW, rcvNxt := Wrap(1 + |p.rcvd| + |data|), rcvd := p.rcvd + data)
  }

  lemma {:induction false} DataTakeIs(l: State, win: u16)
    requires l.live && Inv(l) && l.peer.phase == Open && l.toDevice != []
    ensures l.toDevice[0].ackno == Wrap(l.acksOut[0])
    ensures var s := l.toDevice[0];
            PeerTake(l, win) == l.(toDevice := l.toDevice[1..], acksOut := l.acksOut[1..],
                                   peer := Held(l.peer, s.ackno, l.acksOut[0], s.payload))
  {
    DataTakeFits(l);
    WrapAdd(1 + |l.peer.rcvd|, |l.toDevice[0].payload|);
  }

  lemma {:induction false} DataTakeCounters(l: State, win: u16)
    requires l.live && Inv(l) && l.peer.phase == Open && l.toDevice != []
    ensures HostFacts(PeerTake(l, win)) && PeerFacts(PeerTake(l, win))
  {
    hide PeerTake, Wrap, Sub32, Outbound, Data, Settled, OutFacts, InFacts;
    DataTakeFits(l);
    DataTakeIs(l, win);
  }

  lemma {:induction false} DataTakeKeeps(l: State, win: u16)
    requires l.live && Inv(l) && l.peer.phase == Open && l.toDevice != []
    ensures Inv(PeerTake(l, win))
  {
    DataTakeFits(l);
    DataTakeCounters(l, win);
    var s, l' := l.toDevice[0], PeerTake(l, win);
    InboundRelax(l.toHost, l.acksIn, l.heard, 1 + |l.peer.rcvd|, l.peer.edge, 1 + |l'.peer.rcvd|, l.peer.edge);
  }

  lemma {:induction false} PeerTakeKeeps(l: State, win: u16)
    requires l.live && Inv(l)
    ensures Inv(PeerTake(l, win))
  {
    if l.peer.phase == Closed {
      SynTakeKeeps(l, win);
    } else if l.peer.phase == Open && l.toDevice != [] {
      DataTakeKeeps(l, win);
    }
  }

  /** Emitting a segment after the handshake reply keeps the inbound queue in order. */
  lemma PeerEmitKeeps(l: State, p: Peer, s: Segment)
    requires InFacts(l) && l.c.state in {Connecting, Connected} && l.peer.phase == Open
    requires p.rcvd == l.peer.rcvd && p.edge == l.peer.edge && p.phase != Closed
    requires p.sent == l.peer.sent + (if s.flags == {ACK} then s.payload else [])
    requires RST in s.flags || (s.flags == {ACK} && s.ackno == Wrap(1 + |p.rcvd|))
    ensures InFacts(PeerEmit(l, p, s))
  {
    var l' := PeerEmit(l, p, s);
    var k := if l.c.state == Connecting then 1 else 0;
    var lo := if l.c.state == Connecting then 1 else l.heard;
    DataAppend(l.toHost, s);
    assert l.accepted + (Data(l.toHost) + (if s.flags == {ACK} then s.payload else [])) == p.sent;
    InboundRelax(l.toHost[k..], l.acksIn[k..], lo, 1 + |p.rcvd|, l.peer.edge, 1 + |p.rcvd|, l'.peer.edge);
    InboundAppend(l.toHost[k..], l.acksIn[k..], lo, 1 + |p.rcvd|, l'.peer.edge, s);
    assert l'.toHost[k..] == l.toHost[k..] + [s] && l'.acksIn[k..] == l.acksIn[k..] + [1 + |p.rcvd|];
  }

  lemma {:induction false} PeerSendFacts(l: State, data: seq<byte>, win: u16)
    requires l.live && Inv(l) && MaySend(l.peer, |data|)
    ensures var l' := PeerSend(l, data, win); PeerFacts(l') && HostFacts(l') && OutFacts(l')
  {
    hide InFacts, Outbound, Settled, Data;
    var p := l.peer;
    WrapSub(1 + |p.sent|, p.una);
    WrapAdd(1 + |p.sent|, |data|);
  }

  lemma {:induction false} PeerSendKeeps(l: State, data: seq<byte>, win: u16)
    requires l.live && Inv(l)
    ensures Inv(PeerSend(l, data, win))
  {
    if MaySend(l.peer, |data|) {
      PeerSendFacts(l, data, win);
      var p := l.peer;
      var p' := p.(sndNxt := Add32(p.sndNxt, |data|), sent := p.sent + data);
      PeerEmitKeeps(l, p', Segment(l.c.dport, l.c.sport, p.sndNxt, p.rcvNxt, {ACK}, win, data));
      hide PeerFacts, HostFacts, OutFacts, InFacts;
    }
  }

  lemma {:induction false} PeerResetFacts(l: State, reason: seq<byte>)
    requires l.live && Inv(l)
    ensures var l' := PeerReset(l, reason); PeerFacts(l') && HostFacts(l') && OutFacts(l')
  {
    hide InFacts, Outbound, Settled, Data;
  }

  lemma {:induction false} PeerResetIn(l: State, reason: seq<byte>)
    requires InFacts(l) && l.c.state in {Connecting, Connected} && (l.peer.phase == Closed ==> l.c.state == Connecting)
    ensures InFacts(PeerReset(l, reason))
  {
    hide Inbound;
    var s := Segment(l.c.dport, l.c.sport, l.peer.sndNxt, l.peer.rcvNxt, {RST}, 0, reason);
    if l.peer.phase == Open {
      PeerEmitKeeps(l, l.peer.(phase := Reset), s);
    } else if l.peer.phase == Closed {
      ClosedResetIn(l, s);
    }
  }

  /** Before the handshake nothing is on its way, so the reset comes alone. */
  lemma ClosedResetIn(l: State, s: Segment)
    requires InFacts(l) && l.c.state == Connecting && l.peer.phase == Closed && s.flags == {RST}
    ensures InFacts(PeerEmit(l, l.peer.(phase := Reset), s))
  {
    hide Inbound;
    assert l.toHost + [s] == [s];
    DataAppend(l.toHost, s);
  }

  lemma {:induction false} PeerResetKeeps(l: State, reason: seq<byte>)
    requires l.live && Inv(l)
    ensures Inv(PeerReset(l, reason))
  {
    PeerResetFacts(l, reason);
    PeerResetIn(l, reason);
    hide PeerFacts, HostFacts, OutFacts, InFacts;
  }

  // ---------------------------------------------------------------- the host's steps

  /** An honest device never has more outstanding than the window: the buffer bound. */
  lemma Bounded(l: State)
    requires l.live && Inv(l)
    ensures |l.c.ib| + |Data(l.toHost)| <= TX_WINDOW
  {
    assert |l.peer.sent| == |l.accepted| + |Data(l.toHost)|;
  }

  lemma TeardownKeeps(l: State, c: Conn, writes: seq<Write>)
    requires !l.overflowed && !l.peer.rejected && c.txWin == TX_WINDOW
    requires |l.toDevice| == |l.acksOut| && |l.toHost| == |l.acksIn|
    requires l.accepted == l.delivered + c.ib && l.accepted <= l.peer.sent
    requires |c.ib| <= TX_WINDOW && l.peer.rcvd <= l.taken
    ensures Inv(Teardown(l, c, writes))
  {
    var n := Flushed(c, l.writable, writes);
    assert l.delivered + c.ib == (l.delivered + c.ib[..n]) + c.ib[n..];
  }

  /** One segment is off the queue to the host and one is on the queue to the device. */
  function Answering(l: State, c: Conn, more: seq<byte>, out: Segment, ack: nat): State
    requires l.toHost != [] && l.acksIn != []
  {
    l.(c := c, toHost := l.toHost[1..], acksIn := l.acksIn[1..], heard := l.acksIn[0], accepted := l.accepted + more,
       toDevice := l.toDevice + [out], acksOut := l.acksOut + [ack], acked := ack)
  }

  lemma {:induction false} EstablishIs(l: State, now: nat, writes: seq<Write>)
    requires l.live && Inv(l) && l.c.state == Connecting
    requires l.toHost != [] && RST !in l.toHost[0].flags
    ensures var l', s := HostTake(l, true, now, writes), l.toHost[0];
            && l' == Answering(l, l'.c, [], Sent(l.c.(txSeq := 1), 1, []), 1)
            && l'.c.state == Connected && Settled(l'.c) && l'.c.ib == l.c.ib && l'.c.txWin == TX_WINDOW
            && l'.c.txSeq == l'.c.txAck == l'.c.txAcked == 1 && l'.c.rxRecvd == 0
            && l'.c.rxAck == s.ackno && l'.c.rxWin == s.win * 256
  {
    hide Inbound, Outbound, Data, OutFacts, PeerFacts;
  }

  lemma {:induction false} EstablishKeeps(l: State, now: nat, writes: seq<Write>)
    requires l.live && Inv(l) && l.c.state == Connecting
    requires l.toHost != [] && RST !in l.toHost[0].flags
    ensures Inv(HostTake(l, true, now, writes))
  {
    hide HostTake, Settled;
    EstablishIs(l, now, writes);
    var l' := HostTake(l, true, now, writes);
    assert l'.accepted == l.accepted;
    if l.peer.phase == Open {
      assert l'.toDevice == [Sent(l.c.(txSeq := 1), 1, [])] && l'.acksOut == [1];
      assert Outbound(l'.toDevice[1..], l'.acksOut[1..], 0, 1, 1);
      assert Data(l'.toDevice) == [];
    }
    assert Data(l.toHost) == Data(l.toHost[1..]);
  }

  /** The connection after a data segment, when its acknowledgement is sent. */
  lemma {:induction false} AcceptIs(l: State, now: nat, writes: seq<Write>)
    requires l.live && Inv(l) && l.c.state == Connected
    requires l.toHost != [] && l.toHost[0].flags == {ACK}
    ensures SegmentIn(l.c, l.toHost[0], true, now).verdict == Keep
    ensures var l', s := HostTake(l, true, now, writes), l.toHost[0];
            && l' == Answering(l, l'.c, s.payload, Sent(l.c, l.c.txAck, []), 1 + |l.delivered|)
            && l'.c.state == Connected && Settled(l'.c) && l'.c.ib == l.c.ib + s.payload && l'.c.txWin == TX_WINDOW
            && l'.c.txSeq == l.c.txSeq && l'.c.txAck == l'.c.txAcked == l.c.txAck
            && l'.c.rxRecvd == Wrap(|l.accepted| + |s.payload|) && l'.c.rxAck == s.ackno && l'.c.rxWin == s.win * 256
  {
    Bounded(l);
    WrapAdd(|l.accepted|, |l.toHost[0].payload|);
    hide Inbound, Outbound, OutFacts, PeerFacts;
  }

  lemma {:induction false} AcceptKeepsHost(l: State, now: nat, writes: seq<Write>)
    requires l.live && Inv(l) && l.c.state == Connected
    requires l.toHost != [] && l.toHost[0].flags == {ACK}
    ensures HostFacts(HostTake(l, true, now, writes))
  {
    AcceptIs(l, now, writes);
    hide HostTake, Settled, Wrap, OutFacts, Data;
    assert (l.delivered + l.c.ib) + l.toHost[0].payload == l.delivered + (l.c.ib + l.toHost[0].payload);
    assert Inbound(l.toHost[1..], l.acksIn[1..], l.acksIn[0], 1 + |l.peer.rcvd|, l.peer.edge);
  }

  lemma {:induction false} AcceptKeeps(l: State, now: nat, writes: seq<Write>)
    requires l.live && Inv(l) && l.c.state == Connected
    requires l.toHost != [] && l.toHost[0].flags == {ACK}
    ensures Inv(HostTake(l, true, now, writes))
  {
    AcceptIs(l, now, writes);
    AcceptKeepsHost(l, now, writes);
    hide HostTake, Settled, Wrap, Outbound;
    var l', s := HostTake(l, true, now, writes), l.toHost[0];
    assert l.accepted + (s.payload + Data(l.toHost[1..])) == (l.accepted + s.payload) + Data(l.toHost[1..]);
    HostEmitKeeps(l, l', [], 1 + |l.delivered|);
  }

  /** Sending one more segment keeps the outbound queue in order. */
  lemma HostEmitKeeps(l: State, l': State, data: seq<byte>, ack: nat)
    requires HostFacts(l) && OutFacts(l) && l.c.state == Connected && l'.c.state == Connected
    requires l'.peer == l.peer && l.peer.phase != Closed && l'.taken == l.taken + data
    requires l'.acked == ack && l.acked <= ack
    requires l'.toDevice == l.toDevice + [Segment(l.c.sport, l.c.dport, l.c.txSeq, Wrap(ack), {ACK}, 512, data)]
    requires l'.acksOut == l.acksOut + [ack]
    ensures OutFacts(l')
  {
    if l.peer.phase == Open {
      var s := Segment(l.c.sport, l.c.dport, l.c.txSeq, Wrap(ack), {ACK}, 512, data);
      OutboundAppend(l.toDevice, l.acksOut, |l.peer.rcvd|, l.peer.una, l.acked, s, ack);
      DataAppend(l.toDevice, s);
      assert l.peer.rcvd + (Data(l.toDevice) + data) == (l.peer.rcvd + Data(l.toDevice)) + data;
    }
  }

  /** Refusals, resets and a failed acknowledgement end in a teardown that keeps the streams exact. */
  lemma {:induction false} DropIs(l: State, ok: bool, now: nat)
    requires l.live && Inv(l) && l.toHost != []
    requires !ok || RST in l.toHost[0].flags
    ensures var s := l.toHost[0];
            var r, more := SegmentIn(l.c, s, ok, now), Accepted(l.c, s);
            && r.verdict == Drop && r.c.txWin == TX_WINDOW && |r.c.ib| <= TX_WINDOW
            && l.accepted + more == l.delivered + r.c.ib && l.accepted + more <= l.peer.sent
  {
    Bounded(l);
    hide Outbound, OutFacts, Settled;
    var s := l.toHost[0];
    BufferGains(l.c, s, ok, now);
    assert l.accepted + Accepted(l.c, s) == l.delivered + (l.c.ib + Accepted(l.c, s));
  }

  lemma {:induction false} HostDropKeeps(l: State, ok: bool, now: nat, writes: seq<Write>)
    requires l.live && Inv(l) && l.toHost != []
    requires !ok || RST in l.toHost[0].flags
    ensures Inv(HostTake(l, ok, now, writes))
  {
    var s := l.toHost[0];
    var r := SegmentIn(l.c, s, ok, now);
    var more := Accepted(l.c, s);
    DropIs(l, ok, now);
    hide SegmentIn, Accepted, Inbound, Outbound, Data, Settled;
    TeardownKeeps(l.(toHost := l.toHost[1..], acksIn := l.acksIn[1..], heard := l.acksIn[0],
        accepted := l.accepted + more),
                  r.c, writes);
  }

  lemma {:induction false} HostTakeKeeps(l: State, ok: bool, now: nat, writes: seq<Write>)
    requires l.live && Inv(l)
    ensures Inv(HostTake(l, ok, now, writes))
  {
    if l.toHost != [] {
      if !ok || RST in l.toHost[0].flags {
        HostDropKeeps(l, ok, now, writes);
      } else if l.c.state == Connecting {
        EstablishKeeps(l, now, writes);
      } else {
        AcceptKeeps(l, now, writes);
      }
    }
  }

  /** Wrapped subtraction is the true count of bytes in flight to the device. */
  lemma Unacked(l: State)
    requires l.live && Inv(l) && l.c.state == Connected
    ensures Sub32(l.c.txSeq, l.c.rxAck) == 1 + |l.taken| - l.heard
  {
    WrapSub(1 + |l.taken|, l.heard);
  }

  /** What a client turn does to the connection, in terms of the streams. */
  lemma {:induction false} TurnFacts(l: State, ev: Mask, wrote: int, got: Got, ok: bool, now: nat)
    requires l.live && Inv(l) && l.c.state == Connected
    ensures var t := ClientTurn(l.c, ev, wrote, got, ok, now);
            && t.written <= |l.c.ib|
            && t.c.ib == l.c.ib[t.written..]
            && t.c.txAck == Wrap(1 + |l.delivered| + t.written)
            && t.c.txSeq == Wrap(1 + |l.taken| + |t.taken|)
            && 1 + |l.taken| + |t.taken| <= Max(1 + |l.taken|, l.heard + l.c.rxWin)
            && t.c.txWin == TX_WINDOW
  {
    var t := ClientTurn(l.c, ev, wrote, got, ok, now);
    Unacked(l);
    WrapAdd(1 + |l.delivered|, t.written);
    WrapAdd(1 + |l.taken|, |t.taken|);
  }

  lemma TurnKeeps(c: Conn, ev: Mask, wrote: int, got: Got, ok: bool, now: nat)
    requires c.txWin == TX_WINDOW
    ensures var t := ClientTurn(c, ev, wrote, got, ok, now);
            t.keep ==>
              && Settled(t.c) && t.c.state == c.state && t.c.rxRecvd == c.rxRecvd && t.c.rxAck == c.rxAck
              && t.c.rxWin == c.rxWin
              && (t.out == [] ==> t.c.txAcked == c.txAcked && t.taken == [])
              && (t.out != [] ==> t.c.txAcked == t.c.txAck && t.out == [Sent(c, t.c.txAck, t.taken)])
  {
  }

  function Sent(c: Conn, ackno: u32, data: seq<byte>): Segment {
    Segment(c.sport, c.dport, c.txSeq, ackno, {ACK}, 512, data)
  }

  /** A client turn that the connection survives, in terms of the streams. */
  ghost predicate Survived(l: State, t: Turn) {
    && t.written <= |l.c.ib| && t.c.ib == l.c.ib[t.written..]
    && t.c.txAck == Wrap(1 + |l.delivered| + t.written)
    && t.c.txSeq == Wrap(1 + |l.taken| + |t.taken|)
    && 1 + |l.taken| + |t.taken| <= Max(1 + |l.taken|, l.heard + l.c.rxWin)
    && t.c.txWin == TX_WINDOW && Settled(t.c) && t.c.state == l.c.state
    && t.c.rxRecvd == l.c.rxRecvd && t.c.rxAck == l.c.rxAck && t.c.rxWin == l.c.rxWin
    && (t.out == [] ==> t.c.txAcked == l.c.txAcked && t.taken == [])
    && (t.out != [] ==> t.c.txAcked == t.c.txAck && t.out == [Sent(l.c, t.c.txAck, t.taken)])
  }

  function Turned(l: State, t: Turn): State
    requires t.written <= |l.c.ib|
  {
    Emit(l.(c := t.c, delivered := l.delivered + l.c.ib[..t.written], taken := l.taken + t.taken),
         t.out, 1 + |l.delivered| + t.written)
  }

  lemma {:induction false} ClientIs(l: State, ev: Mask, wrote: int, got: Got, ok: bool, now: nat, writes: seq<Write>)
    requires l.live && Inv(l) && l.writable
    requires ClientTurn(l.c, ev, wrote, got, ok, now).keep
    ensures var t := ClientTurn(l.c, ev, wrote, got, ok, now);
            Survived(l, t) && ClientStep(l, ev, wrote, got, ok, now, writes) == Turned(l, t)
  {
    hide ClientTurn, Settled, Wrap, InFacts, OutFacts, PeerFacts, Teardown, Sent;
    TurnFacts(l, ev, wrote, got, ok, now);
    TurnKeeps(l.c, ev, wrote, got, ok, now);
  }

  lemma {:induction false} TurnedHost(l: State, t: Turn)
    requires l.live && Inv(l) && l.writable && Survived(l, t)
    ensures HostFacts(Turned(l, t))
  {
    hide Settled, InFacts, OutFacts, Wrap;
    assert l.delivered + l.c.ib == (l.delivered + l.c.ib[..t.written]) + l.c.ib[t.written..];
  }

  lemma {:induction false} TurnedOut(l: State, t: Turn)
    requires l.live && Inv(l) && l.writable && Survived(l, t)
    ensures OutFacts(Turned(l, t))
  {
    hide Settled, InFacts, Wrap, Data, Outbound;
    var l' := Turned(l, t);
    if t.out != [] {
      HostEmitKeeps(l, l', t.taken, 1 + |l'.delivered|);
    } else {
      assert l'.toDevice == l.toDevice && l'.acksOut == l.acksOut && l'.taken == l.taken;
    }
  }

  lemma {:induction false} ClientKeepKeeps(l: State, ev: Mask, wrote: int, got: Got, ok: bool, now: nat,
                                           writes: seq<Write>)
    requires l.live && Inv(l) && l.writable
    requires ClientTurn(l.c, ev, wrote, got, ok, now).keep
    ensures Inv(ClientStep(l, ev, wrote, got, ok, now, writes))
  {
    hide ClientTurn, ClientStep, OutFacts, Settled, Wrap, Data, Inbound;
    ClientIs(l, ev, wrote, got, ok, now, writes);
    var t := ClientTurn(l.c, ev, wrote, got, ok, now);
    TurnedHost(l, t);
    TurnedOut(l, t);
  }

  lemma ClientDropKeeps(l: State, ev: Mask, wrote: int, got: Got, ok: bool, now: nat, writes: seq<Write>)
    requires l.live && Inv(l) && l.writable
    requires !ClientTurn(l.c, ev, wrote, got, ok, now).keep
    ensures Inv(ClientStep(l, ev, wrote, got, ok, now, writes))
  {
    TurnFacts(l, ev, wrote, got, ok, now);
    Bounded(l);
    var t := ClientTurn(l.c, ev, wrote, got, ok, now);
    assert l.delivered + l.c.ib == (l.delivered + l.c.ib[..t.written]) + l.c.ib[t.written..];
    TeardownKeeps(l.(delivered := l.delivered + l.c.ib[..t.written], taken := l.taken + t.taken), t.c, writes);
  }

  lemma {:induction false} AckStepKeeps(l: State, ok: bool, now: nat, writes: seq<Write>)
    requires l.live && Inv(l)
    ensures Inv(AckStep(l, ok, now, writes))
  {
    Bounded(l);
    if l.c.state == Connected && l.c.ackPending {
      if !ok {
        TeardownKeeps(l, l.c, writes);
      } else {
        var l' := AckStep(l, ok, now, writes);
        HostEmitKeeps(l, l', [], 1 + |l.delivered|);
      }
    }
  }

  lemma {:induction false} StepKeeps(l: State, e: Event)
    requires Inv(l)
    ensures Inv(Step(l, e))
  {
    InvShaped(l);
    hide Inv, Shaped, PeerTake, PeerSend, PeerReset, HostTake, ClientStep, AckStep, Teardown;
    if l.live {
      match e
      case PeerTakes(win) => PeerTakeKeeps(l, win);
      case PeerSends(data, win) => PeerSendKeeps(l, data, win);
      case PeerResets(reason) => PeerResetKeeps(l, reason);
      case HostTakes(ok, now, ws) => HostTakeKeeps(l, ok, now, ws);
      case ClientOpens =>
        if l.c.state == Connected { ClientOpensKeeps(l); }
      case ClientReady(ev, wrote, got, ok, now, ws) => ClientReadyKeeps(l, ev, wrote, got, ok, now, ws);
      case AckTimer(ok, now, ws) => AckStepKeeps(l, ok, now, ws);
      case HostCloses(ws) => HostClosesKeeps(l, ws);
    }
  }

  lemma ClientOpensKeeps(l: State)
    requires l.live && Inv(l) && l.c.state == Connected
    ensures Inv(l.(writable := true))
  {
    hide Inbound, Outbound, Data, Settled;
  }

  lemma HostClosesKeeps(l: State, writes: seq<Write>)
    requires l.live && Inv(l)
    ensures Inv(Teardown(l, l.c, writes))
  {
    Bounded(l);
    TeardownKeeps(l, l.c, writes);
  }

  lemma {:induction false} ClientReadyKeeps(l: State, ev: Mask, wrote: int, got: Got, ok: bool, now: nat,
                                            writes: seq<Write>)
    requires l.live && Inv(l) && l.c.txWin < U16 * 256
    ensures Inv(ClientStep(l, ev, wrote, got, ok, now, writes))
  {
    if l.writable {
      hide Inv, ClientTurn, ClientStep;
      if ClientTurn(l.c, ev, wrote, got, ok, now).keep {
        ClientKeepKeeps(l, ev, wrote, got, ok, now, writes);
      } else {
        ClientDropKeeps(l, ev, wrote, got, ok, now, writes);
      }
    }
  }

  // ---------------------------------------------------------------- runs

  ghost function Run(l: State, es: seq<Event>): (r: State)
    requires Shaped(l)
    ensures Shaped(r)
    decreases |es|
  {
    if es == [] then l else
    StepShaped(l, es[0]);
    Run(Step(l, es[0]), es[1..])
  }

  lemma {:induction false} RunKeeps(l: State, es: seq<Event>)
    requires Inv(l)
    ensures Shaped(l) && Inv(Run(l, es))
    decreases |es|
  {
    hide Step, Inv, Shaped;
    InvShaped(l);
    if es != [] {
      StepKeeps(l, es[0]);
      StepShaped(l, es[0]);
      RunKeeps(Step(l, es[0]), es[1..]);
    }
  }

  lemma InvShaped(l: State)
    requires Inv(l)
    ensures Shaped(l)
  {
  }

  lemma StartInv(sport: u16, dport: u16, now: nat)
    ensures Inv(Start(sport, dport, now))
  {
    assert Data([]) == [];
  }

  /** A state some run of the pair reaches. */
  ghost predicate Reachable(l: State): (b: bool)
    ensures b ==> Shaped(l)
  {
    exists sport: u16, dport: u16, now: nat, es: seq<Event> ::
      l == Run(Start(sport, dport, now), es)
  }

  lemma {:induction false} ReachableInv(l: State)
    requires Reachable(l)
    ensures Inv(l)
  {
    var sport: u16, dport: u16, now: nat, es :| l == Run(Start(sport, dport, now), es);
    StartInv(sport, dport, now);
    RunKeeps(Start(sport, dport, now), es);
  }

  lemma {:induction false} RunSnoc(l: State, es: seq<Event>, e: Event)
    requires Shaped(l)
    ensures Run(l, es + [e]) == Step(Run(l, es), e)
    decreases |es|
  {
    hide Step, Shaped;
    if es == [] {
      assert es + [e] == [e] && [e][1..] == [];
      StepShaped(l, e);
      assert Run(Step(l, e), []) == Step(l, e);
    } else {
      assert (es + [e])[0] == es[0] && (es + [e])[1..] == es[1..] + [e];
      StepShaped(l, es[0]);
      RunSnoc(Step(l, es[0]), es[1..], e);
    }
  }

  /** One more step. */
  lemma ReachableStep(l: State, e: Event)
    requires Reachable(l)
    ensures Reachable(Step(l, e))
  {
    hide Step, Run;
    var sport: u16, dport: u16, now: nat, es :| l == Run(Start(sport, dport, now), es);
    RunSnoc(Start(sport, dport, now), es, e);
  }

  lemma StartReachable(sport: u16, dport: u16, now: nat)
    ensures Reachable(Start(sport, dport, now))
  {
    assert Start(sport, dport, now) == Run(Start(sport, dport, now), []);
  }

  /** Receive-window safety: the 262144-byte buffer is never asked to hold more than the window. */
  lemma {:induction false} WindowSafety(l: State)
    requires Reachable(l)
    ensures |l.c.ib| <= TX_WINDOW
    ensures !l.overflowed
    ensures l.live ==> |l.c.ib| + |Data(l.toHost)| <= TX_WINDOW
  {
    ReachableInv(l);
    if l.live { Bounded(l); }
  }

  /** Exact delivery, and the meaning of the wrapped acknowledgement counters. */
  lemma {:induction false} ExactDelivery(l: State)
    requires Reachable(l)
    ensures l.delivered + l.c.ib == l.accepted
    ensures l.accepted <= l.peer.sent
    ensures l.live ==> l.delivered + l.c.ib + Data(l.toHost) == l.peer.sent
    ensures l.live && l.c.state == Connected ==>
              && l.c.txAck == Wrap(1 + |l.delivered|)
              && Add32(l.c.txAck, |l.c.ib|) == Add32(l.c.rxRecvd, 1)
  {
    ReachableInv(l);
    if l.live {
      WrapAdd(1 + |l.delivered|, |l.c.ib|);
      WrapAdd(|l.accepted|, 1);
    }
  }

  /** The device accepts everything: what it has and what is in flight is what the client wrote. */
  lemma {:induction false} SendTiling(l: State)
    requires Reachable(l)
    ensures !l.peer.rejected
    ensures l.peer.rcvd <= l.taken
    ensures l.live && l.c.state == Connected && l.peer.phase == Open ==>
              l.peer.rcvd + Data(l.toDevice) == l.taken
  {
    ReachableInv(l);
  }

  /** `sendable` is the minimum of the true room in the window and the two buffer limits. */
  lemma {:induction false} SendableExact(l: State)
    requires Reachable(l) && l.live && l.c.state == Connected
    ensures 0 <= 1 + |l.taken| - l.heard
    ensures Sub32(l.c.txSeq, l.c.rxAck) == 1 + |l.taken| - l.heard
    ensures l.c.sendable == Min(Max(0, l.heard + l.c.rxWin - (1 + |l.taken|)), Min(CONN_OUTBUF_SIZE, MAX_PAYLOAD))
  {
    ReachableInv(l);
    Unacked(l);
  }

  /** Every data segment starts where the stream stands and ends inside the last window received. */
  lemma {:induction false} SegmentInWindow(l: State, ev: Mask, wrote: int, got: Got, ok: bool, now: nat)
    requires Reachable(l) && l.live && l.c.state == Connected
    ensures var t := ClientTurn(l.c, ev, wrote, got, ok, now);
            forall s | s in t.out ::
              s.seqno == Wrap(1 + |l.taken|) && 0 < |s.payload| && 1 + |l.taken| + |s.payload| <= l.heard + l.c.rxWin
  {
    ReachableInv(l);
    Unacked(l);
  }

  /** An acknowledgement is pending exactly when delivered bytes have not been acknowledged. */
  lemma {:induction false} PendingExact(l: State)
    requires Reachable(l) && l.live && l.c.state == Connected
    ensures l.c.ackPending <==> l.acked != 1 + |l.delivered|
    ensures 0 <= 1 + |l.delivered| - l.acked <= TX_WINDOW
  {
    ReachableInv(l);
    assert |l.peer.sent| == |l.accepted| + |Data(l.toHost)|;
    WrapInjective(1 + |l.delivered|, l.acked);
  }

  /**
    Delayed acknowledgements cannot wedge the window: when the device may not send another
    byte, there is still something in the pipe, in the buffer, or on the acknowledgement timer.
   */
  lemma {:induction false} NoWindowDeadlock(l: State)
    requires Reachable(l) && l.live && l.c.state == Connected && l.peer.phase == Open
    requires !MaySend(l.peer, 1)
    ensures l.toDevice != [] || l.toHost != [] || l.c.events.wr || l.c.ackPending
  {
    ReachableInv(l);
    WrapSub(1 + |l.peer.sent|, l.peer.una);
    if l.toDevice == [] && l.toHost == [] && l.c.ib == [] {
      PendingExact(l);
    }
  }
}
