/**
  The host side of one multiplexed TCP-like connection (src/device.c), as functions on
  the value of a `mux_connection`. The class `Connection.MuxConnection` runs the same
  operations in place; `Link` puts the device at the other end of the pipe.
 */
module Transport {
  import opened Words

  const USB_MTU: nat := 3 * 16384
  const MUX_HEADER_SIZE: nat := 16
  const TCP_HEADER_SIZE: nat := 20
  const CONN_INBUF_SIZE: nat := 262144
  const CONN_OUTBUF_SIZE: nat := 65536
  const TX_WINDOW: nat := 131072
  const MAX_PAYLOAD: nat := USB_MTU - MUX_HEADER_SIZE - TCP_HEADER_SIZE
  const ACK_TIMEOUT: nat := 30

  /** The largest window a 16-bit field scaled by 8 bits can carry. */
  const MAX_WINDOW: nat := 0xFFFF * 256

  datatype Flag = FIN | SYN | RST | PSH | ACK | URG | ECE | CWR

  datatype Segment = Segment(sport: u16, dport: u16, seqno: u32, ackno: u32,
                             flags: set<Flag>, win: u16, payload: seq<byte>)

  /** A poll mask: `rd` is POLLIN, `wr` is POLLOUT. */
  datatype Mask = Mask(rd: bool, wr: bool)

  datatype ConnState = Connecting | Connected | Refused | Dying | Dead

  /** `ib` is `ib_buf[..ib_size]`; capacities and `max_payload` are the constants above. */
  datatype Conn = Conn(state: ConnState, sport: u16, dport: u16,
                       txSeq: u32, txAck: u32, txAcked: u32, txWin: u32,
                       rxSeq: u32, rxRecvd: u32, rxAck: u32, rxWin: u32,
                       sendable: nat, ackPending: bool, ib: seq<byte>,
                       events: Mask, lastAckTime: nat)

  /** The connection that `device_start_connect` sets up, before its SYN is sent. */
  function Opening(sport: u16, dport: u16): Conn {
    Conn(Connecting, sport, dport, 0, 0, 0, TX_WINDOW, 0, 0, 0, 0, 0, false, [], Mask(false, false), 0)
  }

  /** The segment `send_tcp` builds. */
  function Outgoing(c: Conn, flags: set<Flag>, data: seq<byte>): Segment
    requires c.txWin < U16 * 256
  {
    Segment(c.sport, c.dport, c.txSeq, c.txAck, flags, c.txWin / 256, data)
  }

  /** What a successful `send_tcp` records: everything up to `txAck` is now acknowledged. */
  function AfterSend(c: Conn, now: nat): Conn {
    c.(txAcked := c.txAck, lastAckTime := now, ackPending := false)
  }

  /** Room the device's last window leaves, clipped to one segment. */
  function Sendable(c: Conn): nat {
    var sent := Sub32(c.txSeq, c.rxAck);
    Min(if c.rxWin > sent then c.rxWin - sent else 0, Min(CONN_OUTBUF_SIZE, MAX_PAYLOAD))
  }

  /** `update_connection`, as far as the connection itself goes. */
  function Refresh(c: Conn): Conn {
    c.(sendable := Sendable(c),
       events := Mask(Sendable(c) > 0, c.ib != []),
       ackPending := c.txAcked != c.txAck)
  }

  datatype Verdict = Keep | Established | Drop | Overflow

  /** `drop` verdicts end in `connection_teardown`, with the connection as in `c`. */
  datatype Reaction = Reaction(c: Conn, out: seq<Segment>, verdict: Verdict)

  /** `send_tcp_ack`. */
  function AckTurn(c: Conn, ok: bool, now: nat): Reaction
    requires c.txWin < U16 * 256
  {
    if !ok then Reaction(c, [], Drop)
    else Reaction(Refresh(AfterSend(c, now)), [Outgoing(c, {ACK}, [])], Keep)
  }

  /** `device_tcp_input` once the connection is found; `ok` says whether the reply could be sent. */
  function SegmentIn(c0: Conn, s: Segment, ok: bool, now: nat): Reaction
    requires c0.txWin < U16 * 256
  {
    var c := c0.(rxSeq := s.seqno, rxAck := s.ackno, rxWin := s.win * 256);
    match c.state
    case Connecting =>
      if s.flags != {SYN, ACK} then
        Reaction(if RST in s.flags then c.(state := Refused) else c, [], Drop)
      else
        var c := c.(txSeq := Add32(c.txSeq, 1), txAck := Add32(c.txAck, 1), rxRecvd := c.rxSeq);
        if !ok then Reaction(c, [], Drop)
        else Reaction(Refresh(AfterSend(c, now).(state := Connected)), [Outgoing(c, {ACK}, [])], Established)
    case Connected =>
      if s.flags != {ACK} then
        Reaction(if RST in s.flags then c.(state := Dying) else c, [], Drop)
      else if |c.ib| + |s.payload| > CONN_INBUF_SIZE then
        Reaction(c, [], Overflow)
      else
        AckTurn(Refresh(c.(ib := c.ib + s.payload, rxRecvd := Add32(c.rxRecvd, |s.payload|))), ok, now)
    case _ =>
      Reaction(c, [], Keep)
  }

  /** The payload bytes of a segment that belong to the stream: those of data that fits, when connected. */
  function Accepted(c: Conn, s: Segment): seq<byte> {
    if c.state == Connected && s.flags == {ACK} && |c.ib| + |s.payload| <= CONN_INBUF_SIZE then s.payload else []
  }

  /** The buffer takes in exactly those, whether or not the acknowledgement can be sent. */
  lemma BufferGains(c: Conn, s: Segment, ok: bool, now: nat)
    requires c.txWin < U16 * 256
    ensures SegmentIn(c, s, ok, now).c.ib == c.ib + Accepted(c, s)
  {
    assert c.ib + [] == c.ib;
  }

  /** Outcome of a `recv` on the client socket; empty data is end of file. */
  datatype Got = ReadFailed | Read(data: seq<byte>)

  datatype Turn = Turn(c: Conn, out: seq<Segment>, written: nat, taken: seq<byte>, keep: bool)

  /** `recv` returns at most what it was asked for. */
  function Received(got: Got, room: nat): seq<byte> {
    if got.ReadFailed? then [] else got.data[..Min(|got.data|, room)]
  }

  /**
    `device_client_process`: deliver buffered device bytes, then forward client bytes.
    `wrote` is the result of the `send` on the client socket, which takes at most what is offered.
   */
  function ClientTurn(c: Conn, ev: Mask, wrote: int, got: Got, ok: bool, now: nat): Turn
    requires c.txWin < U16 * 256
  {
    if ev.wr && c.ib != [] && wrote <= 0 then
      Turn(c, [], 0, [], false)
    else
      var w := if ev.wr && c.ib != [] then Min(wrote, |c.ib|) else 0;
      var c1 := c.(txAck := Add32(c.txAck, w), ib := c.ib[w..]);
      if ev.rd && c.sendable > 0 then
        var data := Received(got, c.sendable);
        if data == [] || !ok then
          Turn(c1, [], w, [], false)
        else
          var c2 := AfterSend(c1, now);
          Turn(Refresh(c2.(txSeq := Add32(c2.txSeq, |data|))), [Outgoing(c1, {ACK}, data)], w, data, true)
      else
        Turn(Refresh(c1), [], w, [], true)
  }

  /** One attempt of the flush loop; `expired` says a second has passed without progress. */
  datatype Write = Failed | Blocked(expired: bool) | Wrote(size: nat)

  /** How many bytes the client socket takes before the flush loop gives up. */
  function FlushRoom(ws: seq<Write>): nat {
    if ws == [] then 0
    else match ws[0]
      case Failed => 0
      case Blocked(expired) => if expired then 0 else FlushRoom(ws[1..])
      case Wrote(n) => n + FlushRoom(ws[1..])
  }

  /** How much of the buffer the flush in `connection_teardown` hands to the client. */
  function Flushed(c: Conn, writable: bool, ws: seq<Write>): nat {
    if writable && c.events.wr then Min(|c.ib|, FlushRoom(ws)) else 0
  }

  /** A connection whose masks and counters are as `update_connection` leaves them. */
  ghost predicate Settled(c: Conn) {
    c == Refresh(c)
  }

  /** What `send_packet` must be able to carry: header sizes of protocol versions 1 and 2. */
  function HeaderSize(version: nat): nat {
    if version < 2 then 8 else MUX_HEADER_SIZE
  }
}
