/**
  `mux_connection` of src/device.c, updated in place: byte buffers shifted by memmove, counters
  and masks assigned field by field. Each method is proved to have the effect of the function
  of module `Transport` named in its contract.
 */
module Connection {
  import opened Words
  import opened Transport

  /** One round of the flush. */
  lemma FlushNext(ws: seq<Write>, k: nat)
    requires k < |ws|
    ensures FlushRoom(ws[k..]) == match ws[k]
              case Failed => 0
              case Blocked(expired) => if expired then 0 else FlushRoom(ws[k + 1..])
              case Wrote(n) => n + FlushRoom(ws[k + 1..])
  {
    assert ws[k..][1..] == ws[k + 1..];
  }

  lemma FlushAll(ws: seq<Write>)
    ensures FlushRoom(ws[0..]) == FlushRoom(ws) && FlushRoom(ws[|ws|..]) == 0
  {
    assert ws[0..] == ws;
  }

  /** What one write takes of `size` bytes. */
  function Took(w: Write, size: nat): nat {
    if w.Wrote? then Min(w.size, size) else 0
  }

  lemma Handed(s: seq<byte>, n: nat, more: nat)
    requires n + more <= |s|
    ensures s[..n] + s[n..][..more] == s[..n + more] && s[n..][more..] == s[n + more..]
  {
  }

  class MuxConnection {
    var state: ConnState
    const sport: u16
    const dport: u16
    var txSeq: u32
    var txAck: u32
    var txAcked: u32
    var txWin: u32
    var rxSeq: u32
    var rxRecvd: u32
    var rxAck: u32
    var rxWin: u32
    var sendable: nat
    var ackPending: bool
    var events: Mask
    var lastAckTime: nat
    const ibBuf: array<byte>
    var ibSize: nat
    const obBuf: array<byte>

    ghost predicate Valid()
      reads this
    {
      && ibBuf.Length == CONN_INBUF_SIZE && obBuf.Length == CONN_OUTBUF_SIZE && ibBuf != obBuf
      && ibSize <= ibBuf.Length
      && txWin < U16 * 256
      && sendable <= obBuf.Length
    }

    ghost function View(): Conn
      requires Valid()
      reads this, ibBuf
    {
      Conn(state, sport, dport, txSeq, txAck, txAcked, txWin, rxSeq, rxRecvd, rxAck, rxWin,
           sendable, ackPending, ibBuf[..ibSize], events, lastAckTime)
    }

    constructor (sport: u16, dport: u16)
      ensures Valid() && fresh(ibBuf) && fresh(obBuf)
      ensures View() == Opening(sport, dport)
    {
      state, this.sport, this.dport := Connecting, sport, dport;
      txSeq, txAck, txAcked, txWin := 0, 0, 0, TX_WINDOW;
      rxSeq, rxRecvd, rxAck, rxWin := 0, 0, 0, 0;
      sendable, ackPending, events, lastAckTime := 0, false, Mask(false, false), 0;
      ibBuf := new byte[CONN_INBUF_SIZE](_ => 0);
      obBuf := new byte[CONN_OUTBUF_SIZE](_ => 0);
      ibSize := 0;
    }

    /** `send_tcp`: nothing is recorded when the packet could not be handed to USB. */
    method SendTcp(flags: set<Flag>, data: seq<byte>, ok: bool, now: nat) returns (out: seq<Segment>)
      requires Valid()
      modifies this`txAcked, this`lastAckTime, this`ackPending
      ensures Valid()
      ensures ok ==> View() == AfterSend(old(View()), now) && out == [Outgoing(old(View()), flags, data)]
      ensures !ok ==> View() == old(View()) && out == []
    {
      out := [];
      if ok {
        out := [Segment(sport, dport, txSeq, txAck, flags, txWin / 256, data)];
        txAcked := txAck;
        lastAckTime := now;
        ackPending := false;
      }
    }

    /** `update_connection`. */
    method UpdateConnection()
      requires Valid()
      modifies this`sendable, this`events, this`ackPending
      ensures Valid() && View() == Refresh(old(View()))
    {
      var sent := Sub32(txSeq, rxAck);
      if rxWin > sent {
        sendable := rxWin - sent;
      } else {
        sendable := 0;
      }
      if sendable > CONN_OUTBUF_SIZE {
        sendable := CONN_OUTBUF_SIZE;
      }
      if sendable > MAX_PAYLOAD {
        sendable := MAX_PAYLOAD;
      }
      events := if sendable > 0 then events.(rd := true) else events.(rd := false);
      events := if ibSize != 0 then events.(wr := true) else events.(wr := false);
      ackPending := txAcked != txAck;
    }

    /** Drop the first `size` bytes of the in-buffer, moving the rest down. */
    method Consume(size: nat)
      requires Valid() && size <= ibSize
      modifies this`ibSize, ibBuf
      ensures Valid() && View() == old(View()).(ib := old(View()).ib[size..])
    {
      ghost var was := ibBuf[..ibSize];
      ibSize := ibSize - size;
      for i := 0 to ibSize
        modifies ibBuf
        invariant forall j :: 0 <= j < i ==> ibBuf[j] == was[j + size]
        invariant forall j :: i <= j < ibSize + size ==> ibBuf[j] == was[j]
      {
        ibBuf[i] := ibBuf[i + size];
      }
      assert ibBuf[..ibSize] == was[size..];
    }

    /** `connection_device_input`, up to the teardown of an overflowing connection. */
    method DeviceInput(payload: seq<byte>) returns (overflow: bool)
      requires Valid()
      modifies this`ibSize, this`rxRecvd, this`sendable, this`events, this`ackPending, ibBuf
      ensures Valid()
      ensures overflow <==> |old(View()).ib| + |payload| > CONN_INBUF_SIZE
      ensures overflow ==> View() == old(View())
      ensures !overflow ==>
                var c := old(View());
                View() == Refresh(c.(ib := c.ib + payload, rxRecvd := Add32(c.rxRecvd, |payload|)))
    {
      overflow := ibSize + |payload| > ibBuf.Length;
      if overflow {
        return;
      }
      ghost var was := ibBuf[..ibSize];
      for i := 0 to |payload|
        modifies ibBuf
        invariant ibBuf[..ibSize] == was
        invariant forall j :: 0 <= j < i ==> ibBuf[ibSize + j] == payload[j]
      {
        ibBuf[ibSize + i] := payload[i];
      }
      assert ibBuf[..ibSize + |payload|] == was + payload;
      ibSize := ibSize + |payload|;
      rxRecvd := Add32(rxRecvd, |payload|);
      UpdateConnection();
    }

    /** `send_tcp_ack`. */
    method SendTcpAck(ok: bool, now: nat) returns (out: seq<Segment>, verdict: Verdict)
      requires Valid()
      modifies this`txAcked, this`lastAckTime, this`ackPending, this`sendable, this`events
      ensures Valid() && Reaction(View(), out, verdict) == AckTurn(old(View()), ok, now)
    {
      out := SendTcp({ACK}, [], ok, now);
      if out == [] {
        verdict := Drop;
      } else {
        UpdateConnection();
        verdict := Keep;
      }
    }

    /** The SYN-ACK case of `device_tcp_input`. */
    method Establish(ok: bool, now: nat) returns (out: seq<Segment>, verdict: Verdict)
      requires Valid() && state == Connecting
      modifies this
      ensures Valid()
      ensures var c0 := old(View());
              var c := c0.(txSeq := Add32(c0.txSeq, 1), txAck := Add32(c0.txAck, 1), rxRecvd := c0.rxSeq);
              if ok then
                && View() == Refresh(AfterSend(c, now).(state := Connected))
                && out == [Outgoing(c, {ACK}, [])] && verdict == Established
              else
                View() == c && out == [] && verdict == Drop
    {
      txSeq := Add32(txSeq, 1);
      txAck := Add32(txAck, 1);
      rxRecvd := rxSeq;
      out := SendTcp({ACK}, [], ok, now);
      if out == [] {
        verdict := Drop;
        return;
      }
      state := Connected;
      verdict := Established;
      UpdateConnection();
    }

    /** `device_tcp_input`, for the connection that was found. */
    method TcpInput(s: Segment, ok: bool, now: nat) returns (out: seq<Segment>, verdict: Verdict)
      requires Valid()
      modifies this, ibBuf
      ensures Valid() && Reaction(View(), out, verdict) == SegmentIn(old(View()), s, ok, now)
    {
      rxSeq, rxAck, rxWin := s.seqno, s.ackno, s.win * 256;
      out, verdict := [], Keep;
      if state == Connecting {
        if s.flags != {SYN, ACK} {
          if RST in s.flags {
            state := Refused;
          }
          verdict := Drop;
        } else {
          out, verdict := Establish(ok, now);
        }
      } else if state == Connected {
        if s.flags != {ACK} {
          if RST in s.flags {
            state := Dying;
          }
          verdict := Drop;
        } else {
          var overflow := DeviceInput(s.payload);
          if overflow {
            verdict := Overflow;
          } else {
            out, verdict := SendTcpAck(ok, now);
          }
        }
      }
    }

    /** First half of `device_client_process`: `size` bytes went to the client and may be acknowledged. */
    method Deliver(size: nat)
      requires Valid() && size <= ibSize
      modifies this`txAck, this`ibSize, ibBuf
      ensures Valid()
      ensures View() == old(View()).(txAck := Add32(old(View()).txAck, size), ib := old(View()).ib[size..])
    {
      txAck := Add32(txAck, size);
      Consume(size);
    }

    /** Second half: the bytes read from the client leave as one segment, or nothing changes. */
    method Forward(data: seq<byte>, ok: bool, now: nat) returns (out: seq<Segment>)
      requires Valid() && |data| <= sendable
      modifies this`txSeq, this`txAcked, this`lastAckTime, this`ackPending, obBuf
      ensures Valid()
      ensures ok ==> var c := AfterSend(old(View()), now); View() == c.(txSeq := Add32(c.txSeq, |data|))
      ensures ok ==> out == [Outgoing(old(View()), {ACK}, data)]
      ensures !ok ==> out == [] && View() == old(View())
    {
      for i := 0 to |data|
        modifies obBuf
        invariant forall j :: 0 <= j < i ==> obBuf[j] == data[j]
      {
        obBuf[i] := data[i];
      }
      assert obBuf[..|data|] == data;
      out := SendTcp({ACK}, obBuf[..|data|], ok, now);
      if out != [] {
        txSeq := Add32(txSeq, |data|);
      }
    }

    /** `device_client_process`. */
    method ClientProcess(ev: Mask, wrote: int, got: Got, ok: bool, now: nat)
        returns (out: seq<Segment>, written: nat, taken: seq<byte>, keep: bool)
      requires Valid()
      modifies this, ibBuf, obBuf
      ensures Valid() && Turn(View(), out, written, taken, keep) == ClientTurn(old(View()), ev, wrote, got, ok, now)
    {
      out, written, taken, keep := [], 0, [], false;
      if ev.wr && ibSize > 0 {
        if wrote <= 0 {
          return;
        }
        written := Min(wrote, ibSize);
        Deliver(written);
      }
      if ev.rd && sendable > 0 {
        var data := Received(got, sendable);
        if data == [] {
          return;
        }
        out := Forward(data, ok, now);
        if out == [] {
          return;
        }
        taken := data;
      }
      UpdateConnection();
      keep := true;
    }

    /** One round of the flush loop: the bytes taken, and whether to go on. */
    method FlushRound(w: Write) returns (chunk: seq<byte>, more: bool)
      requires Valid() && View().ib != []
      modifies this`ibSize, ibBuf
      ensures Valid()
      ensures var ib := old(View()).ib;
              && chunk == ib[..Took(w, |ib|)]
              && View() == old(View()).(ib := ib[Took(w, |ib|)..])
              && (more <==> w == Blocked(false) || (w.Wrote? && w.size < |ib|))
    {
      ghost var ib := View().ib;
      assert ib[..0] == [] && ib[0..] == ib;
      chunk, more := [], false;
      match w {
        case Failed =>
        case Blocked(expired) =>
          more := !expired;
        case Wrote(n) =>
          var size := Min(n, ibSize);
          chunk := ibBuf[..size];
          assert chunk == ibBuf[..ibSize][..size];
          Consume(size);
          more := ibSize > 0;
      }
    }

    /** The flush loop of `connection_teardown`: one `client_write` per element of `ws`. */
    method FlushLoop(ws: seq<Write>) returns (written: seq<byte>)
      requires Valid() && View().ib != []
      modifies this`ibSize, ibBuf
      ensures Valid() && |written| == Min(|old(View()).ib|, FlushRoom(ws))
      ensures written == old(View()).ib[..|written|] && View() == old(View()).(ib := old(View()).ib[|written|..])
    {
      ghost var was := View();
      FlushAll(ws);
      hide FlushRoom, View;
      written := [];
      assert was.ib[0..] == was.ib && was.(ib := was.ib) == was;
      var k, more := 0, true;
      while k < |ws| && more
        invariant Valid() && k <= |ws| && |written| <= |was.ib|
        invariant written == was.ib[..|written|] && View() == was.(ib := was.ib[|written|..])
        invariant more ==> |written| < |was.ib| && |written| + FlushRoom(ws[k..]) == FlushRoom(ws)
        invariant !more ==> |written| == Min(|was.ib|, FlushRoom(ws))
      {
        FlushNext(ws, k);
        Handed(was.ib, |written|, Took(ws[k], |was.ib| - |written|));
        var chunk;
        chunk, more := FlushRound(ws[k]);
        written := written + chunk;
        k := k + 1;
      }
    }

    /** The flush of `connection_teardown`, for a client that is still there. */
    method Flush(ws: seq<Write>) returns (written: seq<byte>)
      requires Valid()
      modifies this`ibSize, ibBuf
      ensures Valid()
      ensures var n := Flushed(old(View()), true, ws);
              && written == old(View()).ib[..n]
              && View() == old(View()).(ib := old(View()).ib[n..])
    {
      written := [];
      if events.wr && ibSize != 0 {
        written := FlushLoop(ws);
      }
    }
  }
}
