/**
  The daemon in the form of its sources: shared tables changed in place by functions that call
  each other, `connection_teardown` -> `client_close` -> `device_abort_connect` ->
  `connection_teardown` included. Each public method is proved to take the step that module
  `Daemon` describes in closed form.
 */
module Usbmuxd {
  import opened Words
  import opened Transport
  import opened Daemon
  import opened DaemonInv
  import opened DaemonSteps
  import opened DaemonRuns
  import opened Teardown
  import Ports

  /** The step for a segment is the one for the only connection it can belong to. */
  lemma {:induction false} StepAddressed(d: State, id: nat, s: Segment, ok: bool, now: nat, w: World, k: nat)
    requires Inv(d) && id in d.devices && d.devices[id].state == Active && k in Matches(d, id, s)
    requires d.conns[k].client.Some? && d.conns[k].client.value in d.clients && d.conns[k].tcp.txWin < U16 * 256
    ensures Step(d, SegmentArrives(id, s, ok, now, w)) == SegmentTo(d, k, d.conns[k].client.value, s, ok, now, w)
  {
    hide InvBut, SegmentTo;
    OnlyAddressee(d, id, s, k);
    assert Addressed(d, id, s, k, d.conns[k].client.value);
  }

  lemma StepStray(d: State, id: nat, s: Segment, ok: bool, now: nat, w: World)
    requires id in d.devices && d.devices[id].state == Active && Matches(d, id, s) == {}
    ensures Step(d, SegmentArrives(id, s, ok, now, w)) == Disowned(d, id, s, ok)
  {
  }

  /** Connections with an acknowledgement to send. */
  function AwaitingAck(d: State): set<nat> {
    set k | k in d.conns && d.conns[k].dev in d.devices && d.devices[d.conns[k].dev].state == Active
            && d.conns[k].tcp.state == Connected && d.conns[k].tcp.ackPending
  }

  /** The time left until the acknowledgement is due. */
  function Remaining(tcp: Conn, ct: nat): nat {
    if Age(tcp, ct) > ACK_TIMEOUT then 0 else ACK_TIMEOUT - Age(tcp, ct)
  }

  function Told(render: Render, cl: Client, note: Note): Client {
    if cl.state == Listening then Queue(render, cl, 0, note) else cl
  }

  lemma TellAll(render: Render, clients: map<nat, Client>, note: Note, told: map<nat, Client>)
    requires told.Keys == clients.Keys && forall c :: c in told ==> told[c] == Told(render, clients[c], note)
    ensures told == Broadcast(render, clients, note)
  {
    hide Queue;
  }

  lemma StepVersion(d: State, id: nat, major: nat, ok: bool)
    ensures Step(d, VersionArrives(id, major, ok)) == Version(d, id, major, ok)
  {
  }

  lemma VersionIs(d: State, id: nat, major: nat, ok: bool)
    ensures Version(d, id, major, ok) ==
            if id !in d.devices || d.devices[id].state != Init then d
            else if major != 1 && major != 2 then d.(devices := d.devices - {id})
            else d.(devices := d.devices[id := d.devices[id].(state := Active, visible := true, version := major)],
                    clients := Broadcast(d.render, d.clients, Attached(id)),
                    strays := if major == 2 && ok then d.strays + [SetUp(id)] else d.strays)
  {
    hide Broadcast;
  }

  lemma StepAttach(d: State, usb: nat, ok: bool)
    requires forall i :: i in d.devices ==> d.devices[i].usb != usb
    ensures Step(d, DeviceArrives(usb, ok)) == Attach(d, usb, ok)
  {
  }

  /** The clock has not run backwards since the last acknowledgements. */
  ghost predicate ClockAhead(d: State, ct: nat) {
    ct < U64 - 1 && forall k :: k in AwaitingAck(d) ==> d.conns[k].tcp.lastAckTime <= ct
  }

  /** `t` is the smallest time any pending acknowledgement may still wait. */
  ghost predicate LeastRemaining(d: State, ct: nat, t: nat) {
    && (exists k :: k in AwaitingAck(d) && t == Remaining(d.conns[k].tcp, ct))
    && (forall k :: k in AwaitingAck(d) ==> t <= Remaining(d.conns[k].tcp, ct))
  }

  lemma StepServed(d: State, c: nat, ev: Mask, wrote: int, got: Got, ok: bool, now: nat, w: World)
    requires c in d.clients && d.clients[c].state == Streaming
    requires d.clients[c].link.Some? && Paired(d, c, d.clients[c].link.value)
    ensures Step(d, ClientServed(c, ev, wrote, got, ok, now, w)) ==
        TurnOf(d, d.clients[c].link.value, c, ev, wrote, got, ok, now, w)
  {
    hide TurnOf;
  }

  lemma IdsBelow(d: State)
    requires Inv(d)
    ensures forall i :: i in d.devices ==> i < d.nextDevice
  {
  }

  class Muxd {
    const render: Render
    var clients: map<nat, Client>
    var conns: map<nat, Entry>
    var devices: map<nat, Device>
    var departed: map<nat, Client>
    var wire: map<nat, seq<Segment>>
    var strays: seq<Stray>
    var nextClient: nat
    var nextConn: nat
    var nextDevice: nat

    ghost function View(): State
      reads this
    {
      State(render, clients, conns, devices, departed, wire, strays, nextClient, nextConn, nextDevice)
    }

    constructor (render: Render)
      ensures View() == Boot(render) && Inv(View())
    {
      this.render := render;
      clients, conns, devices, departed, wire, strays := map[], map[], map[], map[], map[], [];
      nextClient, nextConn, nextDevice := 0, 0, 1;
      new;
      BootInv(render);
    }

    // ---------------------------------------------------------------- client.c, small pieces

    /** `output_buffer_add_message`, on the record of the client. */
    method AddMessage(c: nat, tag: u32, note: Note)
      requires c in clients
      modifies this`clients
      ensures View() == old(View()).(clients := old(clients)[c := Queue(render, old(clients)[c], tag, note)])
    {
      var cl := clients[c];
      var n := Notice(cl.version, tag, note);
      clients := clients[c := cl.(queued := cl.queued + [n], ob := cl.ob + render(n),
          events := cl.events.(wr := true))];
    }

    /** `client_set_events`. */
    method ClientSetEvents(c: nat, m: Mask)
      requires c in clients
      modifies this`clients
      ensures View() == old(View()).(clients := old(clients)[c := SetEvents(old(clients)[c], m)])
    {
      if clients[c].state != Streaming && clients[c].state != Connecting2 {
        assert clients == clients[c := clients[c]];
        return;
      }
      clients := clients[c := clients[c].(devents := m)];
      if clients[c].state == Streaming {
        clients := clients[c := clients[c].(events := m)];
      }
    }

    /** `client_notify_connect`: it fails exactly when the client does not wait for the answer. */
    method ClientNotifyConnect(c: nat, code: nat) returns (ok: bool)
      requires c in clients
      modifies this`clients
      ensures ok <==> old(clients)[c].state == Connecting1
      ensures ok ==> View() == old(View()).(clients := old(clients)[c := Notified(render, old(clients)[c], code)])
      ensures !ok ==> View() == old(View())
    {
      if clients[c].state == Gone {
        return false;
      }
      if clients[c].state != Connecting1 {
        return false;
      }
      AddMessage(c, clients[c].connectTag, ConnectReply(code));
      if code == RESULT_OK {
        clients := clients[c := clients[c].(state := Connecting2, events := Mask(false, true))];
      } else {
        clients := clients[c := clients[c].(state := Commanding, link := None)];
      }
      ok := true;
    }

    // ---------------------------------------------------------------- lookups and teardown

    /** `get_mux_connection`: the first connection of the device that has this client. */
    method GetMuxConnection(dev: nat, c: nat) returns (k: Option<nat>)
      ensures k.Some? ==> k.value in conns && conns[k.value].dev == dev && conns[k.value].client == Some(c)
      ensures k.None? ==> forall l :: l in conns && conns[l].dev == dev ==> conns[l].client != Some(c)
    {
      var todo := conns.Keys;
      while todo != {}
        invariant todo <= conns.Keys
        invariant forall l :: l in conns && l !in todo && conns[l].dev == dev ==> conns[l].client != Some(c)
        decreases todo
      {
        var l :| l in todo;
        if conns[l].dev == dev && conns[l].client == Some(c) {
          return Some(l);
        }
        todo := todo - {l};
      }
      k := None;
    }

    /** A segment that USB accepted for connection `k`. */
    method Log(k: nat, s: Segment)
      modifies this`wire
      ensures wire == Logged(old(wire), k, [s])
    {
      wire := wire[k := SentFor(wire, k) + [s]];
    }

    /** The reset of `connection_teardown`. */
    method SendReset(k: nat, w: World)
      requires k in conns && conns[k].tcp.txWin < U16 * 256
      modifies this`wire
      ensures wire == LoggedAll(old(View()).wire, old(View()).conns,
          Resets(old(View()).conns, {k}, w, DeviceDead(old(View()), k)), RST)
    {
      var e := conns[k];
      var dead := e.dev in devices && devices[e.dev].state == Removed;
      ResetLogged(View(), k, w, dead);
      if !dead && e.tcp.state != Dying && e.tcp.state != Refused && k in w.resets {
        Log(k, Outgoing(e.tcp, {RST}, []));
      }
    }

    /** The part of `connection_teardown` for a connection that came up: mark dead, flush, close. */
    method FlushAndClose(k: nat, c: nat, w: World)
      requires Paired(View(), c, k) && conns[k].tcp.state != Dead && clients[c].state in {Connecting2, Streaming}
      modifies this`clients, this`conns, this`departed, this`wire
      ensures clients == old(clients) - {c} && wire == old(wire)
      ensures departed == old(departed)[c := FlushedOut(old(clients)[c], old(conns)[k].tcp, Writes(w, k))]
      ensures conns - {k} == old(conns) - {k}
      decreases Pending(View()), 0
    {
      hide FlushedOut, LoggedAll, Resets, Close, Pending;
      var e, cl := conns[k], clients[c];
      var n := Flushed(e.tcp, cl.state == Streaming, Writes(w, k));
      conns := conns[k := e.(tcp := e.tcp.(state := Dead, ib := e.tcp.ib[n..]))];
      clients := clients[c := cl.(sent := cl.sent + e.tcp.ib[..n], delivered := cl.delivered + e.tcp.ib[..n])];
      MarkedDead(old(View()), View(), k, e.tcp.(state := Dead, ib := e.tcp.ib[n..]));
      FlushRecord(cl, e.tcp, Writes(w, k));
      CloseDetached(View(), c, w);
      ClientClose(c, w);
    }

    /** `connection_teardown`. */
    method ConnectionTeardown(k: nat, w: World)
      requires TearReady(View(), k)
      modifies this`clients, this`conns, this`departed, this`wire
      ensures View() == TornDown(old(View()), k, w)
      decreases Pending(View()), 1
    {
      hide Notified, FlushedOut, TearDown, LoggedAll, Resets;
      var e := conns[k];
      if e.tcp.state == Dead {
        return;
      }
      ghost var dead := DeviceDead(View(), k);
      SendReset(k, w);
      if e.client.Some? {
        TearOne(old(View()), e.client.value, k, w, dead);
        if e.tcp.state == Refused || e.tcp.state == Connecting {
          var ok := ClientNotifyConnect(e.client.value, RESULT_CONNREFUSED);
        } else {
          FlushAndClose(k, e.client.value, w);
        }
      }
      conns := conns - {k};
    }

    /** `client_close`. */
    method ClientClose(c: nat, w: World)
      requires CloseReady(View(), c)
      modifies this`clients, this`conns, this`departed, this`wire
      ensures View() == ClosedBy(old(View()), c, w)
      decreases Pending(View()), 3
    {
      hide Pending, LoggedAll, Resets;
      if c !in clients {
        return;
      }
      var cl := clients[c];
      NoResets(View(), w);
      if cl.state == Connecting1 || cl.state == Connecting2 {
        clients := clients[c := cl.(state := Gone)];
        MarkedGone(old(View()), View(), c, cl.(state := Gone));
        SameResets(old(View()), View(), cl.link.value, w);
        DeviceAbortConnect(cl.connectDevice, c, w);
      }
      departed := departed[c := cl.(state := Gone, link := None)];
      clients := clients - {c};
    }

    /** `device_abort_connect`. */
    method DeviceAbortConnect(dev: nat, c: nat, w: World)
      requires c in clients && clients[c].link.Some? && Paired(View(), c, clients[c].link.value)
      requires clients[c].connectDevice == dev
      modifies this`clients, this`conns, this`departed, this`wire
      ensures var d, k := old(View()), old(clients)[c].link.value;
              if d.conns[k].tcp.state == Dead then View() == d.(conns := d.conns[k := d.conns[k].(client := None)])
              else View() == d.(conns := d.conns - {k},
                  wire := LoggedAll(d.wire, d.conns, Resets(d.conns, {k}, w, DeviceDead(d, k)), RST))
      decreases Pending(View()), 2
    {
      hide LoggedAll, Resets, TearDown;
      var found := GetMuxConnection(dev, c);
      if found.Some? {
        var k := found.value;
        conns := conns[k := conns[k].(client := None)];
        assert Undead(conns) == Undead(old(conns));
        SameResets(old(View()), View(), k, w);
        ConnectionTeardown(k, w);
      }
    }

    // ---------------------------------------------------------------- client.c

    /** `client_accept`. */
    method ClientAccept()
      requires Inv(View())
      modifies this`clients, this`nextClient
      ensures View() == Step(old(View()), Accept) && Inv(View())
    {
      AcceptKeeps(View());
      clients := clients[nextClient := Fresh()];
      nextClient := nextClient + 1;
    }

    /** A failed or empty `recv`, or a bad length, in `input_buffer_process`. */
    method ClientHangUp(c: nat, w: World)
      requires Inv(View()) && c in clients && clients[c].state != Streaming && clients[c].events.rd
      modifies this`clients, this`conns, this`departed, this`wire
      ensures View() == Step(old(View()), ClientHangsUp(c, w)) && Inv(View())
    {
      hide InvBut, Close;
      HangUpKeeps(View(), c, w);
      RestNotDead(View(), c, w);
      ClientClose(c, w);
    }

    /** `output_buffer_process`; `n` is what `send` returned. */
    method OutputBufferProcess(c: nat, n: int, w: World)
      requires Inv(View()) && c in clients && clients[c].state != Streaming && clients[c].events.wr
      modifies this`clients, this`conns, this`departed, this`wire
      ensures View() == Step(old(View()), ClientDrains(c, n, w)) && Inv(View())
    {
      hide InvBut, Close;
      DrainKeeps(View(), c, n, w);
      var cl := clients[c];
      if cl.ob == [] {
        clients := clients[c := cl.(events := cl.events.(wr := false))];
        return;
      }
      if n <= 0 {
        RestNotDead(View(), c, w);
        ClientClose(c, w);
        return;
      }
      var size := Min(n, |cl.ob|);
      if size == |cl.ob| {
        clients := clients[c := cl.(ob := [], sent := cl.sent + cl.ob, events := cl.events.(wr := false))];
        assert cl.ob[size..] == [] && cl.ob[..size] == cl.ob;
        if cl.state == Connecting2 {
          clients := clients[c := clients[c].(state := Streaming, events := cl.devents)];
        }
      } else {
        clients := clients[c := cl.(ob := cl.ob[size..], sent := cl.sent + cl.ob[..size])];
      }
    }

    /** `start_listen`: one message per visible device, in the order of the table scan. */
    method StartListen(c: nat, order: seq<nat>)
      requires c in clients
      modifies this`clients
      ensures View() == old(View()).(clients := old(clients)[c :=
          QueueAttached(render, old(clients)[c].(state := Listening), order)])
    {
      ghost var was := clients[c].(state := Listening);
      clients := clients[c := clients[c].(state := Listening)];
      assert order[..0] == [];
      for i := 0 to |order|
        invariant c in clients && clients == old(clients)[c := QueueAttached(render, was, order[..i])]
        invariant View() == old(View()).(clients := clients)
      {
        AddMessage(c, 0, Attached(order[i]));
        assert order[..i + 1][..i] == order[..i];
      }
      assert order[..|order|] == order;
    }

    /** The source ports in use on a device, by a scan of its connection table. */
    method Sports(dev: nat) returns (ports: seq<u16>)
      ensures Ports.Listed(ports) == PortsOn(View(), dev) && |ports| == |On(View(), dev)|
    {
      ports := [];
      var todo := conns.Keys;
      assert OnAmong(conns, {}, dev) == {} && PortsOf(conns, {}) == {} && Ports.Listed([]) == {};
      while todo != {}
        invariant todo <= conns.Keys
        invariant Ports.Listed(ports) == PortsOf(conns, OnAmong(conns, conns.Keys - todo, dev))
        invariant |ports| == |OnAmong(conns, conns.Keys - todo, dev)|
        decreases todo
      {
        var k :| k in todo;
        ScanOne(conns, conns.Keys - todo, k, dev);
        assert conns.Keys - todo + {k} == conns.Keys - (todo - {k});
        if conns[k].dev == dev {
          ListedAppend(ports, conns[k].tcp.sport);
          ports := ports + [conns[k].tcp.sport];
        }
        todo := todo - {k};
      }
      assert conns.Keys - todo == conns.Keys;
    }

    /** `device_start_connect`: an error code, or a new connection with its SYN sent. */
    method DeviceStartConnect(dev: nat, port: u16, c: nat, synOk: bool, now: nat) returns (failure: Option<nat>)
      modifies this`conns, this`devices, this`wire, this`nextConn
      ensures var d := old(View());
              if dev !in d.devices then failure == Some(RESULT_BADDEV) && View() == d
              else
                var next, live, n := d.devices[dev].nextSport, PortsOn(d, dev), |On(d, dev)|;
                var sport := Ports.SourcePort(live, n, next);
                var d' := d.(devices := d.devices[dev := d.devices[dev].(nextSport := Ports.NextPort(live, n, next))]);
                if sport == 0 then failure == Some(RESULT_BADDEV) && View() == d'
                else if !synOk then failure == Some(RESULT_CONNREFUSED) && View() == d'
                else failure == None &&
                     View() == d'.(conns := d.conns[d.nextConn :=
                         Entry(dev, Some(c), AfterSend(Opening(sport, port), now))],
                                   nextConn := d.nextConn + 1,
                                   wire := Logged(d.wire, d.nextConn, [Outgoing(Opening(sport, port), {SYN}, [])]))
    {
      if dev !in devices {
        return Some(RESULT_BADDEV);
      }
      var ports := Sports(dev);
      var allocator := new Ports.PortAllocator(devices[dev].nextSport);
      var sport := allocator.FindSport(ports);
      devices := devices[dev := devices[dev].(nextSport := allocator.nextSport)];
      if sport == 0 {
        return Some(RESULT_BADDEV);
      }
      var tcp := Opening(sport, port);
      if !synOk {
        return Some(RESULT_CONNREFUSED);
      }
      Log(nextConn, Outgoing(tcp, {SYN}, []));
      conns := conns[nextConn := Entry(dev, Some(c), AfterSend(tcp, now))];
      nextConn := nextConn + 1;
      failure := None;
    }

    /** The Connect arm of `handle_command`. */
    method ConnectCommand(c: nat, tag: u32, dev: nat, port: u16, synOk: bool, now: nat)
      requires c in clients
      modifies this`clients, this`conns, this`devices, this`wire, this`nextConn
      ensures View() == Connect(old(View()), c, tag, dev, port, synOk, now)
    {
      var k := nextConn;
      var failure := DeviceStartConnect(dev, port, c, synOk, now);
      clients := clients[c := clients[c].(asked := clients[c].asked + [tag])];
      if failure.Some? {
        AddMessage(c, tag, ConnectReply(failure.value));
      } else {
        clients := clients[c := clients[c].(connectTag := tag, connectDevice := dev, state := Connecting1,
            link := Some(k))];
      }
    }

    /** The commands of a client that may issue one. */
    method Dispatch(c: nat, cmd: Command)
      requires c in clients
      modifies this`clients, this`conns, this`devices, this`wire, this`nextConn
      ensures View() == Obey(old(View()), c, cmd)
    {
      hide Connect, Queue, QueueAttached;
      if cmd.plist {
        clients := clients[c := clients[c].(version := 1)];
      } else {
        assert clients == clients[c := clients[c]];
      }
      match cmd.op {
        case ListenOp(order) =>
          AddMessage(c, cmd.tag, Reply(RESULT_OK));
          StartListen(c, order);
        case ConnectOp(dev, port, synOk, now) =>
          ConnectCommand(c, cmd.tag, dev, port, synOk, now);
        case ConnectBad(code) =>
          clients := clients[c := clients[c].(asked := clients[c].asked + [cmd.tag])];
          AddMessage(c, cmd.tag, ConnectReply(code));
        case SavedOp(dev, known) =>
          if known && dev in devices && devices[dev].state == Active {
            Announce(NowPaired(dev));
          }
          AddMessage(c, cmd.tag, Reply(RESULT_OK));
        case OtherOp(code) =>
          AddMessage(c, cmd.tag, Reply(code));
        case Unreadable =>
      }
    }

    /** `handle_command`. */
    method HandleCommand(c: nat, cmd: Command, w: World)
      requires Inv(View()) && c in clients && clients[c].state != Streaming
      requires clients[c].events.rd && Sensible(View(), cmd)
      modifies this`clients, this`conns, this`devices, this`departed, this`wire, this`nextConn
      ensures View() == Handle(old(View()), c, cmd, w)
      ensures !Early(old(View()), c, cmd) ==> View() == Step(old(View()), CommandArrives(c, cmd, w)) && Inv(View())
    {
      hide InvBut, Close, Queue, Obey;
      CommandKeeps(View(), CommandArrives(c, cmd, w));
      if clients[c].state != Commanding {
        BadCommandReady(View(), c, cmd.tag, w);
        AddMessage(c, cmd.tag, Reply(RESULT_BADCOMMAND));
        ClientClose(c, w);
      } else if cmd.version != 0 && cmd.version != 1 {
        if cmd.op.ConnectOp? || cmd.op.ConnectBad? {
          clients := clients[c := clients[c].(asked := clients[c].asked + [cmd.tag])];
          AddMessage(c, cmd.tag, ConnectReply(RESULT_BADVERSION));
        } else {
          AddMessage(c, cmd.tag, Reply(RESULT_BADVERSION));
        }
      } else {
        Dispatch(c, cmd);
      }
    }

    // ---------------------------------------------------------------- device.c, traffic

    /** The search of `device_tcp_input` for the connection with these ports. */
    method FindConnection(id: nat, s: Segment) returns (k: Option<nat>)
      ensures k.Some? ==> k.value in Matches(View(), id, s)
      ensures k.None? ==> Matches(View(), id, s) == {}
    {
      var todo := conns.Keys;
      while todo != {}
        invariant todo <= conns.Keys
        invariant forall l :: l in Matches(View(), id, s) ==> l in todo
        decreases todo
      {
        var l :| l in todo;
        if conns[l].dev == id && conns[l].tcp.sport == s.dport && conns[l].tcp.dport == s.sport {
          return Some(l);
        }
        todo := todo - {l};
      }
      k := None;
    }

    /** `update_connection` and its callers store the connection, its log and its client's masks. */
    method Store(k: nat, tcp: Conn, c: nat, cl: Client, out: seq<Segment>)
      requires k in conns
      modifies this`clients, this`conns, this`wire
      ensures View() == Put(old(View()), k, tcp, c, cl, out)
    {
      conns := conns[k := conns[k].(tcp := tcp)];
      clients := clients[c := cl];
      wire := wire[k := SentFor(wire, k) + out];
    }

    /** `device_tcp_input` for the connection that was found. */
    method SegmentInput(k: nat, c: nat, s: Segment, ok: bool, now: nat, w: World)
      requires Inv(View()) && k in conns && conns[k].client == Some(c) && c in clients && conns[k].tcp.txWin < U16 * 256
      modifies this`clients, this`conns, this`departed, this`wire
      ensures View() == SegmentTo(old(View()), k, c, s, ok, now, w)
    {
      hide InvBut, TearDown, SegmentIn, Notified;
      AtRestConn(View(), k);
      SegmentKeeps(conns[k].tcp, s, ok, now);
      var r := SegmentIn(conns[k].tcp, s, ok, now);
      var cl := clients[c].(fromDevice := clients[c].fromDevice + Accepted(conns[k].tcp, s));
      match r.verdict {
        case Keep =>
          Store(k, r.c, c, SetEvents(cl, r.c.events), r.out);
        case Established =>
          StillWaiting(View(), k);
          Store(k, r.c, c, cl, r.out);
          var granted := ClientNotifyConnect(c, RESULT_OK);
          assert granted;  // so that the teardown of a client that is not waiting is never reached
          ClientSetEvents(c, r.c.events);
        case _ =>
          SegmentDropReady(View(), k, c, s, ok, now);
          Store(k, r.c, c, cl, r.out);
          TearsDown(View(), k, w);
          ConnectionTeardown(k, w);
      }
    }

    /** `device_tcp_input`. */
    method DeviceTcpInput(id: nat, s: Segment, ok: bool, now: nat, w: World)
      requires Inv(View())
      modifies this`clients, this`conns, this`departed, this`wire, this`strays
      ensures View() == Step(old(View()), SegmentArrives(id, s, ok, now, w)) && Inv(View())
    {
      hide InvBut, SegmentTo;
      SegmentArrivesKeeps(View(), SegmentArrives(id, s, ok, now, w));
      if id !in devices || devices[id].state != Active {
        return;
      }
      var found := FindConnection(id, s);
      if found.None? {
        StepStray(View(), id, s, ok, now, w);
        if RST !in s.flags && ok {
          strays := strays + [AnonymousReset(id, Segment(s.dport, s.sport, 0, s.seqno, {RST}, 0, []))];
        }
        return;
      }
      OnlyAddressee(View(), id, s, found.value);
      StepAddressed(View(), id, s, ok, now, w, found.value);
      SegmentInput(found.value, conns[found.value].client.value, s, ok, now, w);
    }

    /** `device_client_process`, found through `get_mux_connection`. */
    method DeviceClientProcess(c: nat, ev: Mask, wrote: int, got: Got, ok: bool, now: nat, w: World)
      requires Inv(View()) && c in clients && clients[c].state == Streaming
      modifies this`clients, this`conns, this`departed, this`wire
      ensures View() == Step(old(View()), ClientServed(c, ev, wrote, got, ok, now, w)) && Inv(View())
    {
      hide InvBut, TearDown, ClientTurn, Step;
      ServedKeeps(View(), ClientServed(c, ev, wrote, got, ok, now, w));
      var found := GetMuxConnection(clients[c].connectDevice, c);
      ServedBy(View(), c);
      StepServed(View(), c, ev, wrote, got, ok, now, w);
      var k := found.value;
      TurnReady(View(), k, c, ev, wrote, got, ok, now);
      var t := ClientTurn(conns[k].tcp, ev, wrote, got, ok, now);
      var gone, cl := conns[k].tcp.ib[..t.written], clients[c];
      cl := cl.(sent := cl.sent + gone, delivered := cl.delivered + gone, forwarded := cl.forwarded + t.taken);
      if t.keep {
        Store(k, t.c, c, SetEvents(cl, t.c.events), t.out);
      } else {
        Store(k, t.c, c, cl, t.out);
        TearsDown(View(), k, w);
        ConnectionTeardown(k, w);
      }
    }

    // ---------------------------------------------------------------- device.c, timers

    /** `send_tcp_ack` for a connection whose timer has run out. */
    method AckNow(k: nat, c: nat, now: nat)
      requires Paired(View(), c, k)
      modifies this`clients, this`conns, this`wire
      ensures var d := old(View()); var r := AckTurn(d.conns[k].tcp, true, now);
              View() == Put(d, k, r.c, c, SetEvents(d.clients[c], r.c.events), r.out)
    {
      var r := AckTurn(conns[k].tcp, true, now);
      Store(k, r.c, c, SetEvents(clients[c], r.c.events), r.out);
    }

    /** `device_check_timeouts`. */
    method CheckTimeouts(ct: nat, oks: set<nat>, clock: Clock, w: World)
      requires Inv(View())
      modifies this`clients, this`conns, this`departed, this`wire
      ensures View() == Step(old(View()), ClockTicks(ct, oks, clock, w)) && Inv(View())
    {
      hide InvBut, TearDown, AckAll, Paired, Put;
      ghost var d := View();
      ghost var due := Due(d, ct);
      var todo := conns.Keys;
      TimerStart(d, due, oks, todo, clock, w);
      while todo != {}
        invariant todo <= d.conns.Keys
        invariant View() == Swept(d, due, oks, todo, clock, w)
        decreases todo
      {
        var k :| k in todo;
        TimerNext(d, ct, oks, todo, clock, w, k);
        if conns[k].dev in devices && devices[conns[k].dev].state == Active && conns[k].tcp.state == Connected
           && conns[k].tcp.ackPending && Age(conns[k].tcp, ct) > ACK_TIMEOUT
        {
          if k in oks {
            AckNow(k, conns[k].client.value, Time(clock, k));
          } else {
            ConnectionTeardown(k, w);
          }
        }
        todo := todo - {k};
      }
      TimerEnd(d, ct, oks, clock, w);
      TimeoutsKeeps(d, ct, oks, clock, w);
    }

    /** `device_get_timeout`: how long the main loop may sleep. */
    method GetTimeout(ct: nat) returns (t: nat)
      ensures AwaitingAck(View()) == {} ==> t == 100000
      ensures AwaitingAck(View()) != {} && ClockAhead(View(), ct) ==> LeastRemaining(View(), ct, t)
    {
      var oldest := U64 - 1;
      var todo := conns.Keys;
      while todo != {}
        invariant todo <= conns.Keys && oldest <= U64 - 1
        invariant forall k :: k in AwaitingAck(View()) && k !in todo ==> oldest <= conns[k].tcp.lastAckTime
        invariant oldest != U64 - 1 ==> exists k :: k in AwaitingAck(View()) && conns[k].tcp.lastAckTime == oldest
        decreases todo
      {
        var k :| k in todo;
        if conns[k].dev in devices && devices[conns[k].dev].state == Active && conns[k].tcp.state == Connected
           && conns[k].tcp.ackPending && conns[k].tcp.lastAckTime < oldest
        {
          oldest := conns[k].tcp.lastAckTime;
          assert k in AwaitingAck(View());
        }
        todo := todo - {k};
      }
      if oldest == U64 - 1 {
        return 100000;
      }
      if (ct - oldest) % U64 > ACK_TIMEOUT {
        return 0;
      }
      t := ACK_TIMEOUT - (ct - oldest) % U64;
    }

    // ---------------------------------------------------------------- device.c, devices

    /** The loops of `client_device_add` and `client_device_remove` over the client list. */
    method Announce(note: Note)
      modifies this`clients
      ensures View() == old(View()).(clients := Broadcast(render, old(clients), note))
    {
      hide Queue;
      var todo := clients.Keys;
      while todo != {}
        invariant todo <= old(clients).Keys && clients.Keys == old(clients).Keys
        invariant View() == old(View()).(clients := clients)
        invariant forall c :: c in todo ==> clients[c] == old(clients)[c]
        invariant forall c :: c in clients && c !in todo ==> clients[c] == Told(render, old(clients)[c], note)
        decreases todo
      {
        var c :| c in todo;
        if clients[c].state == Listening {
          AddMessage(c, 0, note);
        }
        todo := todo - {c};
      }
      TellAll(render, old(clients), note, clients);
    }

    /** `get_next_device_id`: the next counter value that no device has. */
    method GetNextDeviceId() returns (id: nat)
      modifies this`nextDevice
      ensures id !in devices && old(nextDevice) <= id && nextDevice == id + 1
      ensures forall i :: old(nextDevice) <= i < id ==> i in devices
      ensures View() == old(View()).(nextDevice := id + 1)
    {
      while true
        invariant old(nextDevice) <= nextDevice
        invariant forall i :: old(nextDevice) <= i < nextDevice ==> i in devices
        invariant View() == old(View()).(nextDevice := nextDevice)
        decreases |set i | i in devices && i >= nextDevice|
      {
        if nextDevice !in devices {
          id := nextDevice;
          nextDevice := nextDevice + 1;
          return;
        }
        Fewer((set i | i in devices && i >= nextDevice + 1), (set i | i in devices && i >= nextDevice), nextDevice);
        nextDevice := nextDevice + 1;
      }
    }

    /** `device_add`; `ok` says whether the version request could be sent. */
    method DeviceAdd(usb: nat, ok: bool) returns (id: nat)
      requires Inv(View()) && forall i :: i in devices ==> devices[i].usb != usb
      modifies this`devices, this`nextDevice
      ensures View() == Step(old(View()), DeviceArrives(usb, ok)) && Inv(View())
      ensures id == old(nextDevice) && (ok <==> id in devices)
    {
      hide InvBut, Step;
      AttachKeeps(View(), usb, ok);
      StepAttach(View(), usb, ok);
      IdsBelow(View());
      id := GetNextDeviceId();
      assert old(nextDevice) !in devices;
      if ok {
        devices := devices[id := Device(usb, Init, false, 1, 0)];
      }
    }

    /** The end of `device_version_input` and `client_device_add`: active, visible, announced. */
    method Activate(id: nat, major: nat)
      requires id in devices
      modifies this`devices, this`clients
      ensures devices == old(devices)[id := old(devices)[id].(state := Active, visible := true, version := major)]
      ensures clients == Broadcast(render, old(clients), Attached(id))
    {
      hide Broadcast;
      var dev := devices[id];
      devices := devices[id := dev.(version := major)];
      devices := devices[id := devices[id].(state := Active)];
      devices := devices[id := devices[id].(visible := true)];
      Announce(Attached(id));
    }

    /** `device_version_input`, without preflight. */
    method DeviceVersionInput(id: nat, major: nat, ok: bool)
      requires Inv(View())
      modifies this`devices, this`clients, this`strays
      ensures View() == Step(old(View()), VersionArrives(id, major, ok)) && Inv(View())
    {
      hide InvBut, Step, Broadcast, Version;
      StepVersion(View(), id, major, ok);
      VersionKeeps(View(), id, major, ok);
      VersionIs(View(), id, major, ok);
      if id in devices && devices[id].state == Init {
        if major != 2 && major != 1 {
          devices := devices - {id};
        } else {
          if major >= 2 && ok {
            strays := strays + [SetUp(id)];
          }
          Activate(id, major);
        }
      }
    }

    /** `device_remove` for the USB device `usb`. */
    method DeviceRemove(usb: nat, w: World)
      requires Inv(View())
      modifies this`devices, this`clients, this`conns, this`departed, this`wire
      ensures Inv(View())
      ensures if exists i :: i in old(devices) && old(devices)[i].usb == usb then
                exists i :: i in old(devices) && old(devices)[i].usb == usb
                    && View() == Step(old(View()), DeviceLeaves(i, w))
              else View() == old(View())
    {
      hide InvBut, Detach;
      var found := FindUsb(usb);
      if found.Some? {
        DetachKeeps(View(), found.value, w);
        RemoveById(found.value, w);
        assert View() == Step(old(View()), DeviceLeaves(found.value, w));
      }
    }

    method FindUsb(usb: nat) returns (id: Option<nat>)
      ensures id.Some? ==> id.value in devices && devices[id.value].usb == usb
      ensures id.None? ==> forall i :: i in devices ==> devices[i].usb != usb
    {
      var todo := devices.Keys;
      while todo != {}
        invariant todo <= devices.Keys
        invariant forall i :: i in devices && i !in todo ==> devices[i].usb != usb
        decreases todo
      {
        var i :| i in todo;
        if devices[i].usb == usb {
          return Some(i);
        }
        todo := todo - {i};
      }
      id := None;
    }

    /** The loop of `device_remove` over the connections of the device, then the news and the end. */
    method RemoveById(id: nat, w: World)
      requires Inv(View()) && id in devices
      modifies this`devices, this`clients, this`conns, this`departed, this`wire
      ensures View() == Detach(old(View()), id, w)
    {
      hide InvBut, TearDown, Broadcast;
      ghost var d := View();
      if devices[id].state == Active {
        devices := devices[id := devices[id].(state := Removed)];
        var todo := conns.Keys;
        TearNoneDead(d, w);
        assert On(d, id) - todo == {};
        while todo != {}
          invariant todo <= d.conns.Keys
          invariant View() == Removing(d, id, On(d, id) - todo, w)
          decreases todo
        {
          var k :| k in todo;
          TearDownShape(d, On(d, id) - todo, w, true);
          if conns[k].dev == id {
            RemoveNext(d, id, On(d, id) - todo, w, k);
            assert On(d, id) - todo + {k} == On(d, id) - (todo - {k});
            ConnectionTeardown(k, w);
          } else {
            assert On(d, id) - todo == On(d, id) - (todo - {k});
          }
          todo := todo - {k};
        }
        assert On(d, id) - todo == On(d, id);
        TearDownShape(d, On(d, id), w, true);
        Announce(Detached(id));
      }
      devices := devices - {id};
      assert d.devices[id := d.devices[id].(state := Removed)] - {id} == d.devices - {id};
    }
  }
}
