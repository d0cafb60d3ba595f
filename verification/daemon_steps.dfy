/**
  Every step of the daemon keeps the invariant of `DaemonInv`.
 */
module DaemonSteps {
  import opened Words
  import opened Transport
  import opened Daemon
  import opened DaemonInv
  import Ports

  /** The invariant holds in particular while a teardown is being prepared. */
  lemma Weaken(d: State, ks: set<nat>)
    requires Inv(d)
    ensures InvBut(d, ks)
  {
    hide Core, Polled, Closed, Resting, DevicesOk, PortsOk, SkyOf, Links;
  }

  // ---------------------------------------------------------------- traffic of one client

  /** A client record after new device bytes have been noted. */
  function Noted(cl: Client, more: seq<byte>): Client {
    cl.(fromDevice := cl.fromDevice + more)
  }

  /** A data segment, or the acknowledgement timer: the connection stays. */
  lemma KeptSeat(render: Render, cl: Client, tcp: Conn, sky: Sky, tcp': Conn, more: seq<byte>)
    requires Core(render, cl, Some(tcp), sky) && Polled(cl, Some(tcp)) && Resting(tcp) && tcp.state == Connected
    requires Resting(tcp') && tcp'.state == Connected && tcp'.ib == tcp.ib + more
    ensures var cl' := SetEvents(Noted(cl, more), tcp'.events);
            Core(render, cl', Some(tcp'), sky) && Polled(cl', Some(tcp'))
  {
    assert cl.delivered + (tcp.ib + more) == (cl.delivered + tcp.ib) + more;
  }

  /** What arrives on an idle or established connection, and is not a reason to drop it. */
  lemma SegmentKeeps(tcp: Conn, s: Segment, ok: bool, now: nat)
    requires Resting(tcp)
    ensures var r := SegmentIn(tcp, s, ok, now);
            && r.c.sport == tcp.sport && r.c.txWin == TX_WINDOW
            && r.c.ib == tcp.ib + Accepted(tcp, s)
            && (r.verdict == Keep ==> tcp.state == Connected && r.c.state == Connected && Resting(r.c))
            && (r.verdict == Established ==>
                tcp.state == Connecting && r.c.state == Connected && Accepted(tcp, s) == [] && Resting(r.c))
            && (r.verdict in {Drop, Overflow} ==>
                  if tcp.state == Connecting then Unborn(r.c) && Accepted(tcp, s) == []
                      else r.c.state in {Connected, Dying})
  {
    BufferGains(tcp, s, ok, now);
  }

  lemma DroppedSeat(render: Render, cl: Client, tcp: Conn, sky: Sky, tcp': Conn, more: seq<byte>)
    requires Core(render, cl, Some(tcp), sky) && Polled(cl, Some(tcp)) && tcp.state in {Connecting, Connected}
    requires tcp'.ib == tcp.ib + more
    requires if tcp.state == Connecting then Unborn(tcp') && more == [] else tcp'.state in {Connected, Dying}
    ensures Core(render, Noted(cl, more), Some(tcp'), sky)
    ensures cl.state == Connecting1 ==> Polled(Noted(cl, more), Some(tcp'))
  {
    assert cl.delivered + (tcp.ib + more) == (cl.delivered + tcp.ib) + more;
  }

  /** The handshake completes: the grant is queued and the wishes of the connection wait. */
  lemma GrantedSeat(render: Render, cl: Client, tcp: Conn, sky: Sky, tcp': Conn)
    requires Core(render, cl, Some(tcp), sky) && Polled(cl, Some(tcp)) && tcp.state == Connecting
    requires Resting(tcp') && tcp'.state == Connected && tcp'.ib == []
    ensures var cl' := SetEvents(Notified(render, Noted(cl, []), RESULT_OK), tcp'.events);
            Core(render, cl', Some(tcp'), sky) && Polled(cl', Some(tcp'))
  {
    var cl1 := Noted(cl, []);
    assert Core(render, cl1, Some(tcp), sky);
    QueueAnswer(render, cl1, Some(tcp), sky, RESULT_OK, Some(tcp'));
    var cl2 := Notified(render, cl1, RESULT_OK);
    var cl3 := SetEvents(cl2, tcp'.events);
    assert cl3 == cl2.(devents := tcp'.events);
    assert Core(render, cl3, Some(tcp'), sky);
    assert cl3.ob != [];
  }

  /** A segment that ends its connection leaves client and connection in step for the teardown. */
  lemma {:induction false} SegmentDropReady(d: State, k: nat, c: nat, s: Segment, ok: bool, now: nat)
    requires Inv(d) && k in d.conns && d.conns[k].client == Some(c)
    requires c in d.clients && d.conns[k].tcp.txWin < U16 * 256
    requires SegmentIn(d.conns[k].tcp, s, ok, now).verdict in {Drop, Overflow}
    ensures var r := SegmentIn(d.conns[k].tcp, s, ok, now);
            && r.c.state != Dead
            && InvBut(Put(d, k, r.c, c, Noted(d.clients[c], Accepted(d.conns[k].tcp, s)), r.out), {k})
  {
    hide Core, Polled, Closed, DevicesOk, PortsOk, SkyOf, SegmentIn, Put, Resting;
    assert EntryOk(d, k) && Resting(d.conns[k].tcp);
    var cl, tcp, sky := d.clients[c], d.conns[k].tcp, SkyOf(d.devices, d.nextDevice);
    assert Linked(d.conns, cl) == Some(tcp);
    var r := SegmentIn(tcp, s, ok, now);
    SegmentKeeps(tcp, s, ok, now);
    var more := Accepted(tcp, s);
    RestingState(tcp);
    DroppedSeat(d.render, cl, tcp, sky, r.c, more);
    PutKeeps(d, k, r.c, c, Noted(cl, more), r.out);
  }

  lemma {:induction false} SegmentToKeeps(d: State, k: nat, c: nat, s: Segment, ok: bool, now: nat, w: World)
    requires Inv(d) && k in d.conns && d.conns[k].client == Some(c)
    requires c in d.clients && d.conns[k].tcp.txWin < U16 * 256
    ensures Inv(SegmentTo(d, k, c, s, ok, now, w))
  {
    hide Core, Polled, Closed, DevicesOk, PortsOk, SkyOf, SegmentIn, Notified, Put, TearDown, Resting;
    assert EntryOk(d, k) && Resting(d.conns[k].tcp);
    var cl, tcp, sky := d.clients[c], d.conns[k].tcp, SkyOf(d.devices, d.nextDevice);
    assert Linked(d.conns, cl) == Some(tcp);
    var r := SegmentIn(tcp, s, ok, now);
    SegmentKeeps(tcp, s, ok, now);
    var more := Accepted(tcp, s);
    var cl1 := Noted(cl, more);
    match r.verdict
    case Keep =>
      KeptSeat(d.render, cl, tcp, sky, r.c, more);
      PutKeeps(d, k, r.c, c, SetEvents(cl1, r.c.events), r.out);
    case Established =>
      assert more == [];
      CoupledConnecting(d.render, cl, tcp, sky);
      GrantedSeat(d.render, cl, tcp, sky, r.c);
      NotifiedLinks(d.render, cl1);
      PutKeeps(d, k, r.c, c, SetEvents(Notified(d.render, cl1, RESULT_OK), r.c.events), r.out);
    case _ =>
      SegmentDropReady(d, k, c, s, ok, now);
      PutConns(d, k, r.c, c, cl1, r.out);
      TearDownKeeps(Put(d, k, r.c, c, cl1, r.out), {k}, w, false);
  }

  lemma RestingState(tcp: Conn)
    requires Resting(tcp)
    ensures tcp.state in {Connecting, Connected}
  {
  }

  lemma PutConns(d: State, k: nat, tcp: Conn, c: nat, cl: Client, out: seq<Segment>)
    requires k in d.conns
    ensures Put(d, k, tcp, c, cl, out).conns.Keys == d.conns.Keys
  {
  }

  lemma CoupledConnecting(render: Render, cl: Client, tcp: Conn, sky: Sky)
    requires Core(render, cl, Some(tcp), sky) && tcp.state == Connecting
    ensures cl.state == Connecting1 && tcp.ib == []
  {
  }

  lemma NotifiedLinks(render: Render, cl: Client)
    ensures var cl' := Notified(render, cl, RESULT_OK); cl'.link == cl.link && cl'.connectDevice == cl.connectDevice
  {
  }

  // ---------------------------------------------------------------- client turns and timers

  /** A streaming client after `gone` bytes were written to it and `t` happened. */
  function Served(cl: Client, gone: seq<byte>, t: Turn): Client {
    cl.(sent := cl.sent + gone, delivered := cl.delivered + gone, forwarded := cl.forwarded + t.taken)
  }

  lemma TurnKeeps(tcp: Conn, ev: Mask, wrote: int, got: Got, ok: bool, now: nat)
    requires Resting(tcp) && tcp.state == Connected
    ensures var t := ClientTurn(tcp, ev, wrote, got, ok, now);
            && t.written <= |tcp.ib| && t.c.ib == tcp.ib[t.written..]
            && t.c.state == Connected && t.c.sport == tcp.sport && t.c.txWin == TX_WINDOW
            && (t.keep ==> Resting(t.c))
  {
    assert tcp.ib[0..] == tcp.ib;
    TurnSettles(tcp, ev, wrote, got, ok, now);
    hide Settled, Transport.Sendable;
  }

  lemma TurnSettles(tcp: Conn, ev: Mask, wrote: int, got: Got, ok: bool, now: nat)
    requires tcp.txWin < U16 * 256
    ensures var t := ClientTurn(tcp, ev, wrote, got, ok, now); t.keep ==> Settled(t.c)
  {
  }

  lemma ServedSeat(render: Render, cl: Client, tcp: Conn, sky: Sky, n: nat, t: Turn)
    requires Core(render, cl, Some(tcp), sky) && cl.state == Streaming && n <= |tcp.ib|
    requires t.c.ib == tcp.ib[n..] && t.c.state == Connected
    ensures Core(render, Served(cl, tcp.ib[..n], t), Some(t.c), sky)
    ensures Core(render, SetEvents(Served(cl, tcp.ib[..n], t), t.c.events), Some(t.c), sky)
    ensures Polled(SetEvents(Served(cl, tcp.ib[..n], t), t.c.events), Some(t.c))
  {
    assert cl.delivered + tcp.ib == (cl.delivered + tcp.ib[..n]) + tcp.ib[n..];
    assert (Control(render, cl.queued) + cl.delivered) + tcp.ib[..n] ==
        Control(render, cl.queued) + (cl.delivered + tcp.ib[..n]);
  }

  lemma StreamingConnected(render: Render, cl: Client, tcp: Conn, sky: Sky)
    requires Core(render, cl, Some(tcp), sky) && cl.state == Streaming && Resting(tcp)
    ensures tcp.state == Connected
  {
  }

  /** A client turn: either way client and connection stay in step. */
  lemma {:induction false} TurnReady(d: State, k: nat, c: nat, ev: Mask, wrote: int, got: Got, ok: bool, now: nat)
    requires Inv(d) && k in d.conns && d.conns[k].client == Some(c)
    requires c in d.clients && d.conns[k].tcp.txWin < U16 * 256
    requires d.clients[c].state == Streaming
    ensures var tcp := d.conns[k].tcp; var t := ClientTurn(tcp, ev, wrote, got, ok, now);
            && t.written <= |tcp.ib| && t.c.state != Dead
            && var cl := Served(d.clients[c], tcp.ib[..t.written], t);
            && InvBut(Put(d, k, t.c, c, cl, t.out), {k})
            && (t.keep ==> Inv(Put(d, k, t.c, c, SetEvents(cl, t.c.events), t.out)))
  {
    hide Core, Polled, Closed, DevicesOk, PortsOk, SkyOf, ClientTurn, Put, Resting;
    assert EntryOk(d, k) && Resting(d.conns[k].tcp);
    var cl, tcp, sky := d.clients[c], d.conns[k].tcp, SkyOf(d.devices, d.nextDevice);
    assert Linked(d.conns, cl) == Some(tcp);
    StreamingConnected(d.render, cl, tcp, sky);
    TurnKeeps(tcp, ev, wrote, got, ok, now);
    var t := ClientTurn(tcp, ev, wrote, got, ok, now);
    ServedSeat(d.render, cl, tcp, sky, t.written, t);
    var cl1 := Served(cl, tcp.ib[..t.written], t);
    PutKeeps(d, k, t.c, c, cl1, t.out);
    PutKeeps(d, k, t.c, c, SetEvents(cl1, t.c.events), t.out);
  }

  lemma {:induction false} TurnOfKeeps(d: State, k: nat, c: nat, ev: Mask, wrote: int, got: Got, ok: bool, now: nat,
                                       w: World)
    requires Inv(d) && k in d.conns && d.conns[k].client == Some(c)
    requires c in d.clients && d.conns[k].tcp.txWin < U16 * 256
    requires d.clients[c].state == Streaming
    ensures Inv(TurnOf(d, k, c, ev, wrote, got, ok, now, w))
  {
    hide InvBut, ClientTurn, Put, TearDown;
    TurnReady(d, k, c, ev, wrote, got, ok, now);
    var t := ClientTurn(d.conns[k].tcp, ev, wrote, got, ok, now);
    var cl := Served(d.clients[c], d.conns[k].tcp.ib[..t.written], t);
    if !t.keep {
      PutConns(d, k, t.c, c, cl, t.out);
      TearDownKeeps(Put(d, k, t.c, c, cl, t.out), {k}, w, false);
    }
  }

  lemma AckKeeps(tcp: Conn, now: nat)
    requires Resting(tcp) && tcp.state == Connected
    ensures var r := AckTurn(tcp, true, now);
            Resting(r.c) && r.c.state == Connected && r.c.sport == tcp.sport && r.c.ib == tcp.ib
                && r.c.txWin == TX_WINDOW
  {
  }

  /** The acknowledgements of several connections, as seen by each connection. */
  lemma AckedConn(d: State, ks: set<nat>, clock: Clock, k: nat)
    requires Inv(d) && k in d.conns && (forall k :: k in ks && k in d.conns ==> d.conns[k].tcp.state == Connected)
    ensures var e, e' := d.conns[k], AckAll(d, ks, clock).conns[k];
            && e' == e.(tcp := e'.tcp) && Resting(e'.tcp) && e'.tcp.sport == e.tcp.sport && e'.tcp.txWin == TX_WINDOW
            && (if k in ks then e'.tcp == AckTurn(e.tcp, true, Time(clock, k)).c else e' == e)
  {
    assert EntryOk(d, k) && Resting(d.conns[k].tcp);
    if k in ks {
      AckKeeps(d.conns[k].tcp, Time(clock, k));
    }
  }

  lemma AckedKeys(conns: map<nat, Entry>, ks: set<nat>, clock: Clock)
    ensures Acked(conns, ks, clock).Keys == conns.Keys
  {
    hide AckTurn;
  }

  lemma AckedShape(d: State, ks: set<nat>, clock: Clock)
    ensures var d' := AckAll(d, ks, clock);
            && d'.conns.Keys == d.conns.Keys && d'.clients.Keys == d.clients.Keys
            && d' == d.(conns := d'.conns, clients := d'.clients, wire := d'.wire)
            && (forall c :: c in d.clients ==>
                  d'.clients[c].link == d.clients[c].link && d'.clients[c].connectDevice == d.clients[c].connectDevice)
  {
    hide AckTurn, LoggedAll, Time, Acked;
    assert AckAll(d, ks, clock).conns.Keys == d.conns.Keys by {
      AckedKeys(d.conns, ks, clock);
    }
  }

  lemma {:induction false} AckedLinks(d: State, ks: set<nat>, clock: Clock)
    requires Inv(d) && (forall k :: k in ks && k in d.conns ==> d.conns[k].tcp.state == Connected)
    ensures Links(AckAll(d, ks, clock)) && AllResting(AckAll(d, ks, clock).conns, {})
  {
    hide Core, Polled, Closed, Resting, DevicesOk, SkyOf, AckAll, AckTurn, LoggedAll, Agree, Archived;
    AckedShape(d, ks, clock);
    var d' := AckAll(d, ks, clock);
    forall k | k in d'.conns
      ensures Resting(d'.conns[k].tcp) && d'.conns[k].tcp.txWin == TX_WINDOW
      ensures d'.conns[k] == d.conns[k].(tcp := d'.conns[k].tcp) && d'.conns[k].tcp.sport == d.conns[k].tcp.sport
    {
      AckedConn(d, ks, clock, k);
    }
    forall k | k in d'.conns ensures EntryOk(d', k) {
      assert EntryOk(d, k);
    }
    forall c | c in d'.clients ensures SeatOk(d', c) {
      assert SeatOk(d, c);
    }
  }

  lemma {:induction false} EntryWindow(d: State, k: nat)
    requires Inv(d) && k in d.conns
    ensures d.conns[k].tcp.txWin < U16 * 256 && Resting(d.conns[k].tcp)
  {
    assert EntryOk(d, k);
  }

  lemma AckedSeat(d: State, ks: set<nat>, clock: Clock, c: nat)
    requires Inv(d) && (forall k :: k in ks && k in d.conns ==> d.conns[k].tcp.state == Connected)
    requires c in d.clients
    ensures var d', sky := AckAll(d, ks, clock), SkyOf(d.devices, d.nextDevice);
            && Core(d.render, d'.clients[c], Linked(d'.conns, d'.clients[c]), sky)
            && Polled(d'.clients[c], Linked(d'.conns, d'.clients[c]))
  {
    hide Core, Polled, Closed, Resting, DevicesOk, PortsOk, SkyOf, LoggedAll, AckTurn, EntryOk;
    assert SeatOk(d, c);
    var cl := d.clients[c];
    if cl.link.Some? {
      var k := cl.link.value;
      AckedConn(d, ks, clock, k);
      EntryWindow(d, k);
      assert Linked(d.conns, cl) == Some(d.conns[k].tcp);
      if k in ks {
        var tcp := d.conns[k].tcp;
        AckKeeps(tcp, Time(clock, k));
        KeptSeat(d.render, cl, tcp, SkyOf(d.devices, d.nextDevice), AckTurn(tcp, true, Time(clock, k)).c, []);
        assert tcp.ib == tcp.ib + [] && cl.fromDevice == cl.fromDevice + [];
      }
    }
  }

  lemma {:induction false} AckAllKeeps(d: State, ks: set<nat>, clock: Clock)
    requires Inv(d) && (forall k :: k in ks && k in d.conns ==> d.conns[k].tcp.state == Connected)
    ensures Inv(AckAll(d, ks, clock))
  {
    hide Core, Polled, Closed, Resting, SkyOf, Links, AckAll;
    var d' := AckAll(d, ks, clock);
    AckedShape(d, ks, clock);
    AckedLinks(d, ks, clock);
    forall c | c in d'.clients
      ensures Core(d.render, d'.clients[c], Linked(d'.conns, d'.clients[c]), SkyOf(d.devices, d.nextDevice))
      ensures Polled(d'.clients[c], Linked(d'.conns, d'.clients[c]))
    {
      AckedSeat(d, ks, clock, c);
    }
  }

  lemma {:induction false} TimeoutsKeeps(d: State, ct: nat, oks: set<nat>, clock: Clock, w: World)
    requires Inv(d)
    ensures Inv(Timeouts(d, ct, oks, clock, w))
  {
    hide InvBut, TearDown, AckAll;
    var due := Due(d, ct);
    AckAllKeeps(d, due * oks, clock);
    AckedShape(d, due * oks, clock);
    Weaken(AckAll(d, due * oks, clock), due - oks);
    TearDownKeeps(AckAll(d, due * oks, clock), due - oks, w, false);
  }

  // ---------------------------------------------------------------- sockets

  lemma AcceptKeeps(d: State)
    requires Inv(d)
    ensures Inv(d.(clients := d.clients[d.nextClient := Fresh()], nextClient := d.nextClient + 1))
  {
    hide Core, Polled, Closed, Resting, DevicesOk, PortsOk, SkyOf;
    var d' := d.(clients := d.clients[d.nextClient := Fresh()], nextClient := d.nextClient + 1);
    assert forall c :: c in d.clients ==> SeatOk(d, c);
    assert d.nextClient !in d.clients && d.nextClient !in d.departed;
    FreshSeat(d.render, SkyOf(d.devices, d.nextDevice));
    forall k | k in d'.conns ensures EntryOk(d', k) {
      assert EntryOk(d, k);
    }
    forall c | c in d'.clients ensures SeatOk(d', c) {
      if c != d.nextClient { assert SeatOk(d, c); }
    }
  }

  lemma FreshSeat(render: Render, sky: Sky)
    ensures Core(render, Fresh(), None, sky) && Polled(Fresh(), None)
  {
  }

  /** Sending part of the output buffer; the last byte of a grant starts the payload phase. */
  lemma DrainedSeat(render: Render, cl: Client, tcp: Option<Conn>, sky: Sky, n: nat)
    requires Core(render, cl, tcp, sky) && Polled(cl, tcp) && cl.state != Streaming && 0 < n <= |cl.ob|
    ensures Core(render, Drained(cl, n), tcp, sky) && Polled(Drained(cl, n), tcp)
    ensures Drained(cl, n).link == cl.link && Drained(cl, n).connectDevice == cl.connectDevice
  {
    assert cl.sent + cl.ob == (cl.sent + cl.ob[..n]) + cl.ob[n..];
    if n == |cl.ob| {
      assert cl.sent + cl.ob[..n] == cl.sent + cl.ob == Control(render, cl.queued) + [];
    }
  }

  /** A client that is polled for output has output. */
  lemma PolledHasOutput(cl: Client, tcp: Option<Conn>)
    requires Polled(cl, tcp) && cl.state != Streaming && cl.events.wr
    ensures cl.ob != []
  {
  }

  lemma {:induction false} DrainKeeps(d: State, c: nat, n: int, w: World)
    requires Inv(d) && c in d.clients && d.clients[c].state != Streaming && d.clients[c].events.wr
    ensures Inv(Drain(d, c, n, w))
  {
    hide Core, Polled, Closed, Resting, DevicesOk, PortsOk, SkyOf, Drained, Links;
    var cl := d.clients[c];
    PolledHasOutput(cl, Linked(d.conns, cl));
    if n <= 0 {
      Weaken(d, Doomed(cl));
      CloseKeeps(d, c, w);
    } else {
      DrainedSeat(d.render, cl, Linked(d.conns, cl), SkyOf(d.devices, d.nextDevice), Min(n, |cl.ob|));
      ReseatKeeps(d, c, Drained(cl, Min(n, |cl.ob|)), {});
    }
  }

  lemma {:induction false} HangUpKeeps(d: State, c: nat, w: World)
    requires Inv(d) && c in d.clients && d.clients[c].state != Streaming
    ensures Inv(Close(d, c, w))
  {
    Weaken(d, Doomed(d.clients[c]));
    CloseKeeps(d, c, w);
  }

  // ---------------------------------------------------------------- devices

  /** The parts of the invariant between steps. */
  lemma RestParts(d: State)
    requires Inv(d)
    ensures Links(d) && AllResting(d.conns, {}) && Archived(d.render, d.departed)
  {
    hide Core, Polled, Links, AllResting, Archived;
  }

  /** Putting it together again. */
  lemma Assemble(d: State)
    requires Links(d) && AllResting(d.conns, {}) && Archived(d.render, d.departed)
    requires forall c :: c in d.clients ==>
        && Core(d.render, d.clients[c], Linked(d.conns, d.clients[c]), SkyOf(d.devices, d.nextDevice))
        && Polled(d.clients[c], Linked(d.conns, d.clients[c]))
    ensures Inv(d)
  {
    hide Core, Polled, Links, AllResting, Archived, SkyOf, Linked;
  }

  lemma AttachLinks(d: State, usb: nat, ok: bool)
    requires Links(d) && (forall i :: i in d.devices ==> d.devices[i].usb != usb)
    ensures Links(Attach(d, usb, ok))
  {
    var d' := Attach(d, usb, ok);
    assert d.nextDevice !in d.devices;
    forall k | k in d'.conns ensures EntryOk(d', k) {
      assert EntryOk(d, k);
    }
    forall c | c in d'.clients ensures SeatOk(d', c) {
      assert SeatOk(d, c);
    }
  }

  lemma {:induction false} AttachKeeps(d: State, usb: nat, ok: bool)
    requires Inv(d) && (forall i :: i in d.devices ==> d.devices[i].usb != usb)
    ensures Inv(Attach(d, usb, ok))
  {
    hide Core, Polled, Links, AllResting, Archived, SkyOf, InvBut, Linked;
    RestParts(d);
    AttachLinks(d, usb, ok);
    AttachSky(d, usb, ok);
    var d' := Attach(d, usb, ok);
    forall c | c in d'.clients
      ensures Core(d.render, d.clients[c], Linked(d.conns, d.clients[c]), SkyOf(d'.devices, d'.nextDevice))
      ensures Polled(d.clients[c], Linked(d.conns, d.clients[c]))
    {
      SeatFacts(d, c);
      SkyChange(d.render, d.clients[c], Linked(d.conns, d.clients[c]), SkyOf(d.devices, d.nextDevice),
                SkyOf(d'.devices, d'.nextDevice));
    }
    Assemble(d');
  }

  lemma AttachSky(d: State, usb: nat, ok: bool)
    requires Links(d)
    ensures var sky, sky' := SkyOf(d.devices, d.nextDevice), SkyOf(Attach(d, usb, ok).devices, d.nextDevice + 1);
            sky'.visible == sky.visible && sky'.pending <= sky.pending + {d.nextDevice}
                && sky'.bound == sky.bound + 1 == d.nextDevice + 1
  {
  }

  /** A new identifier, or one that vanishes before it was shown, makes no difference to clients. */
  lemma SkyChange(render: Render, cl: Client, tcp: Option<Conn>, sky: Sky, sky': Sky)
    requires Core(render, cl, tcp, sky)
    requires sky'.visible == sky.visible && sky.bound <= sky'.bound
    requires forall i :: i in sky'.pending ==> i in sky.pending || i >= sky.bound
    ensures Core(render, cl, tcp, sky')
  {
  }

  lemma BroadcastLinks(d: State, note: Note)
    requires Links(d)
    ensures Links(d.(clients := Broadcast(d.render, d.clients, note)))
  {
    var d' := d.(clients := Broadcast(d.render, d.clients, note));
    forall k | k in d'.conns ensures EntryOk(d', k) {
      assert EntryOk(d, k);
    }
    forall c | c in d'.clients ensures SeatOk(d', c) {
      assert SeatOk(d, c);
    }
  }

  /** A client of the broadcast that announces device `id`. */
  lemma AnnouncedSeat(render: Render, cl: Client, tcp: Option<Conn>, sky: Sky, id: nat, sky': Sky)
    requires Core(render, cl, tcp, sky) && Polled(cl, tcp)
    requires id < sky.bound == sky'.bound && id in sky.pending
    requires sky'.visible == sky.visible + {id} && sky'.pending == sky.pending - {id}
    ensures var cl' := if cl.state == Listening then Queue(render, cl, 0, Attached(id)) else cl;
            Core(render, cl', tcp, sky') && Polled(cl', tcp)
  {
    if cl.state == Listening {
      QueueAttach(render, cl, sky, id, sky');
    }
  }

  /** A client of the broadcast that withdraws device `id`. */
  lemma WithdrawnSeat(render: Render, cl: Client, tcp: Option<Conn>, sky: Sky, id: nat, sky': Sky)
    requires Core(render, cl, tcp, sky) && Polled(cl, tcp)
    requires id in sky.visible && sky' == sky.(visible := sky.visible - {id})
    ensures var cl' := if cl.state == Listening then Queue(render, cl, 0, Detached(id)) else cl;
            Core(render, cl', tcp, sky') && Polled(cl', tcp)
  {
    if cl.state == Listening {
      QueueDetach(render, cl, sky, id, sky');
    }
  }

  /** Dropping a device that was never shown. */
  lemma {:induction false} ForgetKeeps(d: State, id: nat)
    requires Inv(d) && id in d.devices && d.devices[id].state == Init
    ensures Inv(d.(devices := d.devices - {id}))
  {
    RestParts(d);
    ForgetLinks(d, id);
    ForgetSky(d, id);
    hide Core, Polled, Links, AllResting, Archived, SkyOf, InvBut;
    var d' := d.(devices := d.devices - {id});
    forall c | c in d'.clients
      ensures Core(d.render, d.clients[c], Linked(d.conns, d.clients[c]), SkyOf(d'.devices, d'.nextDevice))
      ensures Polled(d.clients[c], Linked(d.conns, d.clients[c]))
    {
      SeatFacts(d, c);
      SkyChange(d.render, d.clients[c], Linked(d.conns, d.clients[c]), SkyOf(d.devices, d.nextDevice),
                SkyOf(d'.devices, d'.nextDevice));
    }
    Assemble(d');
  }

  lemma ForgetLinks(d: State, id: nat)
    requires Links(d) && id in d.devices && d.devices[id].state == Init
    ensures Links(d.(devices := d.devices - {id}))
  {
    var d' := d.(devices := d.devices - {id});
    forall k | k in d'.conns ensures EntryOk(d', k) {
      assert EntryOk(d, k);
    }
    forall c | c in d'.clients ensures SeatOk(d', c) {
      assert SeatOk(d, c);
    }
  }

  lemma ForgetSky(d: State, id: nat)
    requires id in d.devices && d.devices[id].state == Init
    ensures var sky, sky' := SkyOf(d.devices, d.nextDevice), SkyOf(d.devices - {id}, d.nextDevice);
            sky'.visible == sky.visible && sky'.pending <= sky.pending && sky'.bound == sky.bound
  {
  }

  lemma ActivateSky(d: State, id: nat, major: nat)
    requires Links(d) && id in d.devices && d.devices[id].state == Init
    ensures var devices := d.devices[id := d.devices[id].(state := Active, visible := true, version := major)];
            var sky, sky' := SkyOf(d.devices, d.nextDevice), SkyOf(devices, d.nextDevice);
            && id < sky.bound == sky'.bound && id in sky.pending
            && sky'.visible == sky.visible + {id} && sky'.pending == sky.pending - {id}
            && DevicesOk(devices, d.nextDevice)
  {
  }

  /** A device changes from one state to another, or leaves, and listeners are told. */
  lemma NewsLinks(d: State, note: Note, devices: map<nat, Device>)
    requires Links(d) && DevicesOk(devices, d.nextDevice)
    requires forall k :: k in d.conns ==> d.conns[k].dev in devices && devices[d.conns[k].dev].state == Active
    ensures Links(d.(devices := devices, clients := Broadcast(d.render, d.clients, note)))
  {
    BroadcastLinks(d, note);
    hide Broadcast, DevicesOk, PortsOk;
    var d1 := d.(clients := Broadcast(d.render, d.clients, note));
    var d' := d1.(devices := devices);
    forall k | k in d'.conns ensures EntryOk(d', k) {
      assert EntryOk(d1, k);
    }
    forall c | c in d'.clients ensures SeatOk(d', c) {
      assert SeatOk(d1, c);
    }
  }

  lemma EntriesActive(d: State, k: nat)
    requires Links(d) && k in d.conns
    ensures d.conns[k].dev in d.devices && d.devices[d.conns[k].dev].state == Active
  {
    assert EntryOk(d, k);
  }

  /** Client `c` agrees with its connection and with `sky` after it was told, if it listens. */
  ghost predicate Suits(d: State, note: Note, sky: Sky, c: nat)
    requires c in d.clients
  {
    var cl, tcp := d.clients[c], Linked(d.conns, d.clients[c]);
    var cl' := if cl.state == Listening then Queue(d.render, cl, 0, note) else cl;
    Core(d.render, cl', tcp, sky) && Polled(cl', tcp)
  }

  lemma NewsSeat(d: State, note: Note, sky: Sky, c: nat)
    requires c in d.clients && Suits(d, note, sky, c)
    ensures var clients := Broadcast(d.render, d.clients, note);
            && c in clients
            && Core(d.render, clients[c], Linked(d.conns, clients[c]), sky)
            && Polled(clients[c], Linked(d.conns, clients[c]))
  {
    hide Core, Polled;
    var cl' := Broadcast(d.render, d.clients, note)[c];
    assert cl'.link == d.clients[c].link;
  }

  lemma {:induction false} NewsKeeps(d: State, note: Note, devices: map<nat, Device>)
    requires Inv(d) && Links(d.(devices := devices, clients := Broadcast(d.render, d.clients, note)))
    requires forall c :: c in d.clients ==> Suits(d, note, SkyOf(devices, d.nextDevice), c)
    ensures Inv(d.(devices := devices, clients := Broadcast(d.render, d.clients, note)))
  {
    hide InvBut, Links, AllResting, Archived, Core, Polled, SkyOf, Linked, Suits, Broadcast;
    RestParts(d);
    var d' := d.(devices := devices, clients := Broadcast(d.render, d.clients, note));
    var sky := SkyOf(devices, d.nextDevice);
    forall c | c in d'.clients
      ensures Core(d.render, d'.clients[c], Linked(d.conns, d'.clients[c]), sky)
      ensures Polled(d'.clients[c], Linked(d.conns, d'.clients[c]))
    {
      NewsKeys(d, note);
      NewsSeat(d, note, sky, c);
    }
    Assemble(d');
  }

  lemma NewsKeys(d: State, note: Note)
    ensures Broadcast(d.render, d.clients, note).Keys == d.clients.Keys
  {
  }

  lemma ActivateLinks(d: State, id: nat, major: nat)
    requires Links(d) && id in d.devices && d.devices[id].state == Init
    ensures Links(Activated(d, id, major))
  {
    ActivateSky(d, id, major);
    var d' := Activated(d, id, major);
    forall k | k in d.conns ensures d.conns[k].dev in d'.devices && d'.devices[d.conns[k].dev].state == Active {
      EntriesActive(d, k);
    }
    NewsLinks(d, Attached(id), d'.devices);
  }

  lemma {:induction false} ActivateKeeps(d: State, id: nat, major: nat)
    requires Inv(d) && id in d.devices && d.devices[id].state == Init && (major == 1 || major == 2)
    ensures Inv(Activated(d, id, major))
  {
    hide InvBut, Links, Core, Polled, SkyOf, Linked, Broadcast, Queue;
    RestParts(d);
    ActivateSky(d, id, major);
    ActivateLinks(d, id, major);
    var d' := Activated(d, id, major);
    var sky, sky' := SkyOf(d.devices, d.nextDevice), SkyOf(d'.devices, d.nextDevice);
    forall c | c in d.clients ensures Suits(d, Attached(id), sky', c) {
      SeatFacts(d, c);
      AnnouncedSeat(d.render, d.clients[c], Linked(d.conns, d.clients[c]), sky, id, sky');
    }
    NewsKeeps(d, Attached(id), d'.devices);
  }

  lemma QueueLink(render: Render, cl: Client, tag: u32, note: Note)
    ensures Queue(render, cl, tag, note).link == cl.link
    ensures Queue(render, cl, tag, note).connectDevice == cl.connectDevice
    ensures Queue(render, cl, tag, note).state == cl.state
  {
  }

  lemma StrayKeeps(d: State, strays: seq<Stray>)
    requires Inv(d)
    ensures Inv(d.(strays := strays))
  {
    hide Core, Polled, Closed, Resting, DevicesOk, PortsOk, SkyOf;
    var d' := d.(strays := strays);
    forall k | k in d'.conns ensures EntryOk(d', k) {
      assert EntryOk(d, k);
    }
    forall c | c in d'.clients ensures SeatOk(d', c) {
      assert SeatOk(d, c);
    }
  }

  lemma {:induction false} VersionKeeps(d: State, id: nat, major: nat, ok: bool)
    requires Inv(d)
    ensures Inv(Version(d, id, major, ok))
  {
    if id in d.devices && d.devices[id].state == Init {
      if major == 1 || major == 2 {
        ActivateKeeps(d, id, major);
        StrayKeeps(Activated(d, id, major), Version(d, id, major, ok).strays);
      } else {
        ForgetKeeps(d, id);
      }
    }
  }

  /** A client of the broadcast that a device was paired. */
  lemma PairedSeat(render: Render, cl: Client, tcp: Option<Conn>, sky: Sky, id: nat)
    requires Core(render, cl, tcp, sky) && Polled(cl, tcp) && id in sky.visible
    ensures var cl' := if cl.state == Listening then Queue(render, cl, 0, NowPaired(id)) else cl;
            Core(render, cl', tcp, sky) && Polled(cl', tcp)
  {
    if cl.state == Listening {
      QueuePaired(render, cl, sky, id);
    }
  }

  lemma ActiveShown(d: State, id: nat)
    requires Links(d) && id in d.devices && d.devices[id].state == Active
    ensures id in SkyOf(d.devices, d.nextDevice).visible
  {
  }

  lemma {:induction false} PairedKeeps(d: State, id: nat)
    requires Inv(d) && id in d.devices && d.devices[id].state == Active
    ensures Inv(d.(clients := Broadcast(d.render, d.clients, NowPaired(id))))
  {
    hide InvBut, Links, Core, Polled, SkyOf, Linked, Broadcast, Queue;
    RestParts(d);
    ActiveShown(d, id);
    BroadcastLinks(d, NowPaired(id));
    var sky := SkyOf(d.devices, d.nextDevice);
    forall c | c in d.clients ensures Suits(d, NowPaired(id), sky, c) {
      SeatFacts(d, c);
      PairedSeat(d.render, d.clients[c], Linked(d.conns, d.clients[c]), sky, id);
    }
    NewsKeeps(d, NowPaired(id), d.devices);
  }

  lemma WithdrawSky(d: State, id: nat)
    requires Links(d) && id in d.devices && d.devices[id].state == Active
    ensures var sky, sky' := SkyOf(d.devices, d.nextDevice), SkyOf(d.devices - {id}, d.nextDevice);
            id in sky.visible && sky' == sky.(visible := sky.visible - {id})
                && DevicesOk(d.devices - {id}, d.nextDevice)
  {
    var sky, sky' := SkyOf(d.devices, d.nextDevice), SkyOf(d.devices - {id}, d.nextDevice);
    assert sky'.pending == sky.pending;
  }

  /** Withdrawing a device that has no connections left. */
  lemma WithdrawLinks(d: State, id: nat)
    requires Links(d) && id in d.devices && d.devices[id].state == Active && On(d, id) == {}
    ensures Links(d.(devices := d.devices - {id}, clients := Broadcast(d.render, d.clients, Detached(id))))
  {
    WithdrawSky(d, id);
    var devices := d.devices - {id};
    forall k | k in d.conns ensures d.conns[k].dev in devices && devices[d.conns[k].dev].state == Active {
      assert k !in On(d, id);
      EntriesActive(d, k);
    }
    NewsLinks(d, Detached(id), devices);
  }

  lemma {:induction false} WithdrawKeeps(d: State, id: nat)
    requires Inv(d) && id in d.devices && d.devices[id].state == Active && On(d, id) == {}
    ensures Inv(d.(devices := d.devices - {id}, clients := Broadcast(d.render, d.clients, Detached(id))))
  {
    hide InvBut, Links, Core, Polled, SkyOf, Linked, Broadcast, Queue;
    RestParts(d);
    WithdrawSky(d, id);
    WithdrawLinks(d, id);
    var sky, sky' := SkyOf(d.devices, d.nextDevice), SkyOf(d.devices - {id}, d.nextDevice);
    forall c | c in d.clients ensures Suits(d, Detached(id), sky', c) {
      SeatFacts(d, c);
      WithdrawnSeat(d.render, d.clients[c], Linked(d.conns, d.clients[c]), sky, id, sky');
    }
    NewsKeeps(d, Detached(id), d.devices - {id});
  }

  lemma {:induction false} DetachKeeps(d: State, id: nat, w: World)
    requires Inv(d)
    ensures Inv(Detach(d, id, w))
  {
    hide InvBut, Aftermath;
    if id in d.devices {
      if d.devices[id].state == Active {
        Weaken(d, On(d, id));
        TearDownKeeps(d, On(d, id), w, true);
        var d1 := TearDown(d, On(d, id), w, true);
        assert On(d1, id) == {};
        WithdrawKeeps(d1, id);
      } else {
        DeviceStates(d, id);
        ForgetKeeps(d, id);
      }
    }
  }

  lemma DeviceStates(d: State, id: nat)
    requires Inv(d) && id in d.devices
    ensures d.devices[id].state in {Init, Active}
  {
  }

  // ---------------------------------------------------------------- commands

  /** A reply to a client that is not yet connected. */
  lemma RepliedSeat(render: Render, cl: Client, tcp: Option<Conn>, sky: Sky, tag: u32, code: nat)
    requires Core(render, cl, tcp, sky) && Polled(cl, tcp) && cl.state in {Commanding, Listening, Connecting1}
    ensures Core(render, Queue(render, cl, tag, Reply(code)), tcp, sky)
        && Polled(Queue(render, cl, tag, Reply(code)), tcp)
  {
    QueueReply(render, cl, tcp, sky, tag, Reply(code));
  }

  lemma RefusedSeat(render: Render, cl: Client, sky: Sky, tag: u32, code: nat)
    requires Core(render, cl, None, sky) && Polled(cl, None) && cl.state == Commanding && code != RESULT_OK
    ensures var cl' := Queue(render, cl.(asked := cl.asked + [tag]), tag, ConnectReply(code));
            Core(render, cl', None, sky) && Polled(cl', None)
  {
    QueueRefusal(render, cl, sky, tag, code);
  }

  ghost function SetOf(ids: seq<nat>): set<nat> {
    set i | i in ids
  }

  /** The announcements of `start_listen`, one by one. */
  lemma {:induction false} ListenSeat(render: Render, cl: Client, sky: Sky, ids: seq<nat>)
    requires Core(render, cl, None, sky) && Polled(cl, None) && cl.state == Listening
    requires sky.visible == {} && Replay(cl.queued).value.heard == {}
    requires forall i :: 0 <= i < |ids| ==> ids[i] < sky.bound && ids[i] !in sky.pending
    requires forall i, j :: 0 <= i < j < |ids| ==> ids[i] != ids[j]
    ensures var cl' := QueueAttached(render, cl, ids);
            && Core(render, cl', None, sky.(visible := SetOf(ids))) && Polled(cl', None)
            && Replay(cl'.queued).value.heard == SetOf(ids)
            && cl'.state == Listening && cl'.link == cl.link && cl'.connectDevice == cl.connectDevice
  {
    if ids == [] {
      assert SetOf(ids) == {};
      assert sky.(visible := {}) == sky;
    } else {
      var rest, last := ids[..|ids| - 1], ids[|ids| - 1];
      ListenSeat(render, cl, sky, rest);
      assert SetOf(ids) == SetOf(rest) + {last};
      assert last !in SetOf(rest);
      QueueAttach(render, QueueAttached(render, cl, rest), sky.(visible := SetOf(rest)), last,
          sky.(visible := SetOf(ids)));
    }
  }

  /** A client that starts to listen knows exactly the visible devices. */
  lemma ListeningSeat(render: Render, cl: Client, sky: Sky, tag: u32, order: seq<nat>)
    requires Core(render, cl, None, sky) && Polled(cl, None) && cl.state == Commanding
    requires Enumerates(order, sky.visible) && sky.visible !! sky.pending
    requires forall i :: i in sky.visible ==> i < sky.bound
    ensures var cl' := QueueAttached(render, Queue(render, cl, tag, Reply(RESULT_OK)).(state := Listening), order);
            && Core(render, cl', None, sky) && Polled(cl', None)
            && cl'.link == cl.link && cl'.connectDevice == cl.connectDevice
  {
    QueueReply(render, cl, None, sky, tag, Reply(RESULT_OK));
    var cl1 := Queue(render, cl, tag, Reply(RESULT_OK)).(state := Listening);
    assert Core(render, cl1, None, sky.(visible := {}));
    ListenSeat(render, cl1, sky.(visible := {}), order);
    assert SetOf(order) == sky.visible;
    assert sky.(visible := {}).(visible := sky.visible) == sky;
  }

  /** Connections have at most one source port each. */
  lemma {:induction false} PortCount(conns: map<nat, Entry>, ks: set<nat>)
    requires ks <= conns.Keys
    ensures |PortsOf(conns, ks)| <= |ks|
  {
    if ks == {} {
      assert PortsOf(conns, ks) == {};
    } else {
      var x :| x in ks;
      PortCount(conns, ks - {x});
      assert PortsOf(conns, ks) == PortsOf(conns, ks - {x}) + {conns[x].tcp.sport};
    }
  }

  /** The allocated port is not in use on the device. */
  lemma NewPort(d: State, dev: nat, k: nat)
    requires k in d.conns && d.conns[k].dev == dev && dev in d.devices
    requires Ports.SourcePort(PortsOn(d, dev), |On(d, dev)|, d.devices[dev].nextSport) != 0
    ensures d.conns[k].tcp.sport != Ports.SourcePort(PortsOn(d, dev), |On(d, dev)|, d.devices[dev].nextSport)
  {
    PortCount(d.conns, On(d, dev));
    Ports.PortIsFree(PortsOn(d, dev), |On(d, dev)|, d.devices[dev].nextSport);
    assert k in On(d, dev) && d.conns[k].tcp.sport in PortsOn(d, dev);
  }

  /** Moving the port counter of a device changes nothing else. */
  lemma {:induction false} CounterKeeps(d: State, dev: nat, next: u16)
    requires Inv(d) && dev in d.devices
    ensures Inv(d.(devices := d.devices[dev := d.devices[dev].(nextSport := next)]))
  {
    hide Core, Polled, Closed, Resting, PortsOk;
    var d' := d.(devices := d.devices[dev := d.devices[dev].(nextSport := next)]);
    assert SkyOf(d'.devices, d'.nextDevice) == SkyOf(d.devices, d.nextDevice);
    forall k | k in d'.conns ensures EntryOk(d', k) {
      assert EntryOk(d, k);
    }
    forall c | c in d'.clients ensures SeatOk(d', c) {
      assert SeatOk(d, c);
    }
  }

  /** The record of a client whose Connect is under way. */
  function Waiting(cl: Client, tag: u32, dev: nat, k: nat): Client {
    cl.(asked := cl.asked + [tag], state := Connecting1, connectTag := tag, connectDevice := dev, link := Some(k))
  }

  lemma WaitingSeat(render: Render, cl: Client, sky: Sky, tag: u32, dev: nat, k: nat, sport: u16, port: u16, now: nat)
    requires Core(render, cl, None, sky) && Polled(cl, None) && cl.state == Commanding && sport != 0
    ensures var tcp := AfterSend(Opening(sport, port), now); var cl' := Waiting(cl, tag, dev, k);
            Core(render, cl', Some(tcp), sky) && Polled(cl', Some(tcp)) && Resting(tcp)
  {
  }

  lemma OpenPorts(conns: map<nat, Entry>, k: nat, e: Entry)
    requires PortsOk(conns) && k !in conns
    requires forall l :: l in conns && conns[l].dev == e.dev ==> conns[l].tcp.sport != e.tcp.sport
    ensures PortsOk(conns[k := e])
  {
  }

  lemma OpenLinks(d: State, c: nat, cl: Client, dev: nat, tcp: Conn, wire: map<nat, seq<Segment>>)
    requires Links(d) && c in d.clients && d.clients[c].link.None?
    requires dev in d.devices && d.devices[dev].state == Active
    requires cl.link == Some(d.nextConn) && cl.connectDevice == dev && tcp.txWin == TX_WINDOW && tcp.sport != 0
    requires forall k :: k in d.conns && d.conns[k].dev == dev ==> d.conns[k].tcp.sport != tcp.sport
    ensures Links(d.(conns := d.conns[d.nextConn := Entry(dev, Some(c), tcp)], nextConn := d.nextConn + 1,
        clients := d.clients[c := cl], wire := wire))
    ensures d.nextConn !in d.conns
  {
    hide DevicesOk, PortsOk;
    var d' := d.(conns := d.conns[d.nextConn := Entry(dev, Some(c), tcp)], nextConn := d.nextConn + 1,
        clients := d.clients[c := cl], wire := wire);
    assert d.nextConn in d.conns ==> EntryOk(d, d.nextConn);
    OpenPorts(d.conns, d.nextConn, Entry(dev, Some(c), tcp));
    forall k | k in d'.conns ensures EntryOk(d', k) {
      if k != d.nextConn { assert EntryOk(d, k); }
    }
    forall x | x in d'.clients ensures SeatOk(d', x) {
      assert SeatOk(d, x);
    }
  }

  lemma OpenRests(conns: map<nat, Entry>, k: nat, e: Entry)
    requires AllResting(conns, {}) && Resting(e.tcp)
    ensures AllResting(conns[k := e], {})
  {
  }

  /** The other clients keep the connections they have. */
  lemma OpenSeat(d: State, c: nat, x: nat, e: Entry)
    requires Links(d) && x in d.clients
    ensures forall cl: Client :: cl.link == Some(d.nextConn) ==> Linked(d.conns[d.nextConn := e], cl) == Some(e.tcp)
    ensures Linked(d.conns[d.nextConn := e], d.clients[x]) == Linked(d.conns, d.clients[x])
  {
    assert SeatOk(d, x);
    if d.clients[x].link.Some? {
      assert EntryOk(d, d.clients[x].link.value);
    }
  }

  lemma {:induction false} OpenKeeps(d: State, c: nat, cl: Client, dev: nat, tcp: Conn, wire: map<nat, seq<Segment>>)
    requires Inv(d) && c in d.clients && d.clients[c].link.None?
    requires dev in d.devices && d.devices[dev].state == Active
    requires cl.link == Some(d.nextConn) && cl.connectDevice == dev && tcp.txWin == TX_WINDOW && tcp.sport != 0
    requires forall k :: k in d.conns && d.conns[k].dev == dev ==> d.conns[k].tcp.sport != tcp.sport
    requires Core(d.render, cl, Some(tcp), SkyOf(d.devices, d.nextDevice)) && Polled(cl, Some(tcp)) && Resting(tcp)
    ensures Inv(d.(conns := d.conns[d.nextConn := Entry(dev, Some(c), tcp)], nextConn := d.nextConn + 1,
        clients := d.clients[c := cl], wire := wire))
  {
    hide Core, Polled, Resting, Links, AllResting, Archived, SkyOf, InvBut, Linked;
    RestParts(d);
    OpenLinks(d, c, cl, dev, tcp, wire);
    OpenRests(d.conns, d.nextConn, Entry(dev, Some(c), tcp));
    var d' := d.(conns := d.conns[d.nextConn := Entry(dev, Some(c), tcp)], nextConn := d.nextConn + 1,
        clients := d.clients[c := cl], wire := wire);
    forall x | x in d'.clients
      ensures Core(d.render, d'.clients[x], Linked(d'.conns, d'.clients[x]), SkyOf(d.devices, d.nextDevice))
      ensures Polled(d'.clients[x], Linked(d'.conns, d'.clients[x]))
    {
      OpenSeat(d, c, x, Entry(dev, Some(c), tcp));
      if x != c {
        SeatFacts(d, x);
      }
    }
    Assemble(d');
  }

  lemma CommandingUnlinked(d: State, c: nat)
    requires Inv(d) && c in d.clients && d.clients[c].state == Commanding
    ensures d.clients[c].link == None && Linked(d.conns, d.clients[c]) == None
  {
    assert SeatOk(d, c) && Core(d.render, d.clients[c], Linked(d.conns, d.clients[c]), SkyOf(d.devices, d.nextDevice));
  }

  lemma {:induction false} ConnectKeeps(d: State, c: nat, tag: u32, dev: nat, port: u16, synOk: bool, now: nat)
    requires Inv(d) && c in d.clients && d.clients[c].state == Commanding
    requires !EarlyConnect(d, dev, synOk)
    ensures Inv(Connect(d, c, tag, dev, port, synOk, now))
  {
    hide Core, Polled, Closed, Resting, DevicesOk, PortsOk, Links, Queue, Agree, AllResting, Archived;
    CommandingUnlinked(d, c);
    var cl, sky := d.clients[c], SkyOf(d.devices, d.nextDevice);
    SeatFacts(d, c);
    if dev !in d.devices {
      RefusedSeat(d.render, cl, sky, tag, RESULT_BADDEV);
      QueueLink(d.render, cl.(asked := cl.asked + [tag]), tag, ConnectReply(RESULT_BADDEV));
      ReseatKeeps(d, c, Queue(d.render, cl.(asked := cl.asked + [tag]), tag, ConnectReply(RESULT_BADDEV)), {});
    } else {
      var next := Ports.NextPort(PortsOn(d, dev), |On(d, dev)|, d.devices[dev].nextSport);
      var sport := Ports.SourcePort(PortsOn(d, dev), |On(d, dev)|, d.devices[dev].nextSport);
      CounterKeeps(d, dev, next);
      var d1 := d.(devices := d.devices[dev := d.devices[dev].(nextSport := next)]);
      SeatFacts(d1, c);
      var sky1 := SkyOf(d1.devices, d1.nextDevice);
      if sport == 0 || !synOk {
        var code := if sport == 0 then RESULT_BADDEV else RESULT_CONNREFUSED;
        RefusedSeat(d.render, cl, sky1, tag, code);
        QueueLink(d.render, cl.(asked := cl.asked + [tag]), tag, ConnectReply(code));
        ReseatKeeps(d1, c, Queue(d.render, cl.(asked := cl.asked + [tag]), tag, ConnectReply(code)), {});
      } else {
        forall k | k in d1.conns && d1.conns[k].dev == dev ensures d1.conns[k].tcp.sport != sport {
          NewPort(d, dev, k);
        }
        WaitingSeat(d.render, cl, sky1, tag, dev, d.nextConn, sport, port, now);
        OpenKeeps(d1, c, Waiting(cl, tag, dev, d.nextConn), dev, AfterSend(Opening(sport, port), now),
                  Logged(d.wire, d.nextConn, [Outgoing(Opening(sport, port), {SYN}, [])]));
      }
    }
  }

  lemma SeatFacts(d: State, c: nat)
    requires Inv(d) && c in d.clients
    ensures Core(d.render, d.clients[c], Linked(d.conns, d.clients[c]), SkyOf(d.devices, d.nextDevice))
    ensures Polled(d.clients[c], Linked(d.conns, d.clients[c]))
  {
  }
}
