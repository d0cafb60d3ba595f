/**
  The payload a client is owed, computed from the events of a run alone: the payloads of the segments
  that were addressed to its connection and accepted. Devices may send anything.
 */
module History {
  import opened Words
  import opened Transport
  import opened Daemon
  import opened DaemonInv
  import opened DaemonSteps
  import opened DaemonRuns
  import opened DaemonTheorems

  /** What the record of client `c` says was accepted for it. */
  ghost function Heard(d: State, c: nat): seq<byte> {
    if c in d.clients then d.clients[c].fromDevice
    else if c in d.departed then d.departed[c].fromDevice
    else []
  }

  /** The payload that event `e` brings for client `c`. */
  ghost function News(d: State, e: Event, c: nat): seq<byte> {
    if e.SegmentArrives? && Enabled(d, e) && exists k :: Addressed(d, e.id, e.s, k, c) then
      var k :| Addressed(d, e.id, e.s, k, c);
      Accepted(d.conns[k].tcp, e.s)
    else []
  }

  /** All the payload that a run brings for client `c`, in order. */
  ghost function Payloads(d: State, es: seq<Event>, c: nat): seq<byte>
    decreases |es|
  {
    if es == [] then [] else News(d, es[0], c) + Payloads(Step(d, es[0]), es[1..], c)
  }

  // ---------------------------------------------------------------- what does not touch it

  /** A client is in one table only. */
  ghost predicate Apart(d: State) {
    d.clients.Keys !! d.departed.Keys
  }

  lemma RestApart(d: State)
    requires Inv(d)
    ensures Apart(d) && d.nextClient !in d.clients && d.nextClient !in d.departed
  {
    assert forall c :: c in d.clients ==> SeatOk(d, c);
  }

  lemma AftermathHistory(render: Render, cl: Client, conns: map<nat, Entry>, w: World)
    requires Hit(cl, conns, conns.Keys)
    ensures Aftermath(render, cl, conns, w).fromDevice == cl.fromDevice
  {
    hide Flushed;
    QueueHistory(render, cl, cl.connectTag, ConnectReply(RESULT_CONNREFUSED));
  }

  lemma TearDownHistory(d: State, ks: set<nat>, w: World, dead: bool, c: nat)
    requires Apart(d)
    ensures Heard(TearDown(d, ks, w, dead), c) == Heard(d, c)
  {
    hide LoggedAll, Resets, Aftermath;
    if c in d.clients && Hit(d.clients[c], d.conns, ks) {
      AftermathHistory(d.render, d.clients[c], d.conns, w);
    }
  }

  lemma QueueHistory(render: Render, cl: Client, tag: u32, note: Note)
    ensures Queue(render, cl, tag, note).fromDevice == cl.fromDevice
  {
  }

  lemma CloseHistory(d: State, c': nat, w: World, c: nat)
    requires Apart(d)
    ensures Heard(Close(d, c', w), c) == Heard(d, c)
  {
    hide LoggedAll, Resets;
  }

  lemma BroadcastHistory(d: State, note: Note, c: nat)
    ensures Heard(d.(clients := Broadcast(d.render, d.clients, note)), c) == Heard(d, c)
  {
  }

  /** A change to one record that leaves its payload alone. */
  lemma ReseatHistory(d: State, c': nat, cl: Client, c: nat)
    requires c' in d.clients && cl.fromDevice == d.clients[c'].fromDevice
    ensures Heard(d.(clients := d.clients[c' := cl]), c) == Heard(d, c)
  {
  }

  lemma {:induction false} AttachedHistory(render: Render, cl: Client, ids: seq<nat>)
    ensures QueueAttached(render, cl, ids).fromDevice == cl.fromDevice
  {
    if ids != [] {
      AttachedHistory(render, cl, ids[..|ids| - 1]);
    }
  }

  lemma ConnectHistory(d: State, c': nat, tag: u32, dev: nat, port: u16, synOk: bool, now: nat, c: nat)
    requires c' in d.clients
    ensures Heard(Connect(d, c', tag, dev, port, synOk, now), c) == Heard(d, c)
  {
    hide Opening, AfterSend, Outgoing, On, PortsOn, Logged;
  }

  lemma {:induction false} ObeyHistory(d: State, c': nat, cmd: Command, c: nat)
    requires c' in d.clients
    ensures Heard(Obey(d, c', cmd), c) == Heard(d, c)
  {
    hide Connect, QueueAttached, Broadcast, Queue, Heard;
    var cl := if cmd.plist then d.clients[c'].(version := 1) else d.clients[c'];
    var d1 := d.(clients := d.clients[c' := cl]);
    ReseatHistory(d, c', cl, c);
    match cmd.op
    case ListenOp(order) =>
      var cl1 := Queue(d.render, cl, cmd.tag, Reply(RESULT_OK)).(state := Listening);
      QueueHistory(d.render, cl, cmd.tag, Reply(RESULT_OK));
      AttachedHistory(d.render, cl1, order);
      ReseatHistory(d1, c', QueueAttached(d.render, cl1, order), c);
    case ConnectOp(dev, port, synOk, now) =>
      ConnectHistory(d1, c', cmd.tag, dev, port, synOk, now, c);
    case ConnectBad(code) =>
      QueueHistory(d.render, cl.(asked := cl.asked + [cmd.tag]), cmd.tag, ConnectReply(code));
      ReseatHistory(d1, c', Queue(d.render, cl.(asked := cl.asked + [cmd.tag]), cmd.tag, ConnectReply(code)), c);
    case SavedOp(dev, known) =>
      SavedHistory(d1, c', cmd.tag, dev, c);
      QueueHistory(d.render, cl, cmd.tag, Reply(RESULT_OK));
      ReseatHistory(d1, c', Queue(d.render, cl, cmd.tag, Reply(RESULT_OK)), c);
    case OtherOp(code) =>
      QueueHistory(d.render, cl, cmd.tag, Reply(code));
      ReseatHistory(d1, c', Queue(d.render, cl, cmd.tag, Reply(code)), c);
    case Unreadable =>
  }

  lemma SavedHistory(d: State, c': nat, tag: u32, dev: nat, c: nat)
    requires c' in d.clients
    ensures var all := Broadcast(d.render, d.clients, NowPaired(dev));
            Heard(d.(clients := all[c' := Queue(d.render, all[c'], tag, Reply(RESULT_OK))]), c) == Heard(d, c)
  {
    BroadcastHistory(d, NowPaired(dev), c);
    BroadcastKeys(d, NowPaired(dev));
    hide Broadcast, Queue, Heard;
    var all := Broadcast(d.render, d.clients, NowPaired(dev));
    QueueHistory(d.render, all[c'], tag, Reply(RESULT_OK));
    ReseatHistory(d.(clients := all), c', Queue(d.render, all[c'], tag, Reply(RESULT_OK)), c);
  }

  lemma BroadcastKeys(d: State, note: Note)
    ensures Broadcast(d.render, d.clients, note).Keys == d.clients.Keys
  {
  }

  lemma {:induction false} HandleHistory(d: State, c': nat, cmd: Command, w: World, c: nat)
    requires Apart(d) && c' in d.clients
    ensures Heard(Handle(d, c', cmd, w), c) == Heard(d, c)
  {
    hide Close, Obey;
    var cl := d.clients[c'];
    var d1 := d.(clients := d.clients[c' := Queue(d.render, cl, cmd.tag, Reply(RESULT_BADCOMMAND))]);
    CloseHistory(d1, c', w, c);
    ObeyHistory(d, c', cmd, c);
  }

  lemma {:induction false} DrainHistory(d: State, c': nat, n: int, w: World, c: nat)
    requires Apart(d) && c' in d.clients
    ensures Heard(Drain(d, c', n, w), c) == Heard(d, c)
  {
    hide Close;
    CloseHistory(d, c', w, c);
  }

  lemma {:induction false} DetachHistory(d: State, id: nat, w: World, c: nat)
    requires Apart(d)
    ensures Heard(Detach(d, id, w), c) == Heard(d, c)
  {
    hide TearDown, Broadcast;
    if id in d.devices && d.devices[id].state == Active {
      var d1 := TearDown(d, On(d, id), w, true);
      TearDownHistory(d, On(d, id), w, true, c);
      BroadcastHistory(d1, Detached(id), c);
    }
  }

  lemma {:induction false} TurnHistory(d: State, k: nat, c': nat, ev: Mask, wrote: int, got: Got, ok: bool, now: nat,
                                       w: World, c: nat)
    requires Apart(d) && k in d.conns && c' in d.clients && d.conns[k].tcp.txWin < U16 * 256
    ensures Heard(TurnOf(d, k, c', ev, wrote, got, ok, now, w), c) == Heard(d, c)
  {
    hide TearDown, ClientTurn, Logged;
    var cl, tcp := d.clients[c'], d.conns[k].tcp;
    var t := ClientTurn(tcp, ev, wrote, got, ok, now);
    var gone := tcp.ib[..Min(t.written, |tcp.ib|)];
    var cl1 := cl.(sent := cl.sent + gone, delivered := cl.delivered + gone, forwarded := cl.forwarded + t.taken);
    var d1 := Put(d, k, t.c, c', cl1, t.out);
    TearDownHistory(d1, {k}, w, false, c);
  }

  lemma {:induction false} ClockHistory(d: State, ct: nat, oks: set<nat>, clock: Clock, w: World, c: nat)
    requires Apart(d)
    ensures Heard(Timeouts(d, ct, oks, clock, w), c) == Heard(d, c)
  {
    hide TearDown, AckTurn, Acked, LoggedAll;
    var due := Due(d, ct);
    var d1 := AckAll(d, due * oks, clock);
    assert d1.clients.Keys == d.clients.Keys;
    TearDownHistory(d1, due - oks, w, false, c);
  }

  // ---------------------------------------------------------------- what does

  /** The change of one connection and its client, with `more` payload for it. */
  lemma PutHistory(d: State, k: nat, tcp: Conn, c': nat, cl: Client, out: seq<Segment>, more: seq<byte>, c: nat)
    requires k in d.conns && c' in d.clients && cl.fromDevice == d.clients[c'].fromDevice + more
    ensures Heard(Put(d, k, tcp, c', cl, out), c) == Heard(d, c) + if c == c' then more else []
    ensures Apart(d) ==> Apart(Put(d, k, tcp, c', cl, out))
  {
    assert Heard(d, c) + [] == Heard(d, c);
  }

  lemma {:induction false} SegmentHistory(d: State, k: nat, c': nat, s: Segment, ok: bool, now: nat, w: World, c: nat)
    requires Apart(d) && k in d.conns && c' in d.clients && d.conns[k].tcp.txWin < U16 * 256
    ensures Heard(SegmentTo(d, k, c', s, ok, now, w), c) ==
            Heard(d, c) + if c == c' then Accepted(d.conns[k].tcp, s) else []
  {
    hide TearDown, SegmentIn, Put, Accepted, Heard, Apart, Queue;
    var cl, tcp := d.clients[c'], d.conns[k].tcp;
    var r, more := SegmentIn(tcp, s, ok, now), Accepted(tcp, s);
    var cl1 := cl.(fromDevice := cl.fromDevice + more);
    match r.verdict
    case Keep => PutHistory(d, k, r.c, c', SetEvents(cl1, r.c.events), r.out, more, c);
    case Established =>
      QueueHistory(d.render, cl1, cl1.connectTag, ConnectReply(RESULT_OK));
      PutHistory(d, k, r.c, c', SetEvents(Notified(d.render, cl1, RESULT_OK), r.c.events), r.out, more, c);
    case _ =>
      PutHistory(d, k, r.c, c', cl1, r.out, more, c);
      TearDownHistory(Put(d, k, r.c, c', cl1, r.out), {k}, w, false, c);
  }

  /** Of all that can match a segment there is one, and its client is known. */
  lemma OneOwner(d: State, id: nat, s: Segment, k: nat, c: nat, k': nat, c': nat)
    requires PortsOk(d.conns) && Addressed(d, id, s, k, c) && Addressed(d, id, s, k', c')
    ensures k == k' && c == c'
  {
  }

  lemma NewsIs(d: State, e: Event, k: nat, c: nat)
    requires PortsOk(d.conns) && e.SegmentArrives? && Enabled(d, e) && Addressed(d, e.id, e.s, k, c)
    ensures News(d, e, c) == Accepted(d.conns[k].tcp, e.s)
  {
    assert k in d.conns;
    hide Enabled, PortsOk, Accepted, Addressed;
    var k' :| Addressed(d, e.id, e.s, k', c) && News(d, e, c) == Accepted(d.conns[k'].tcp, e.s);
    OneOwner(d, e.id, e.s, k, c, k', c);
  }

  lemma NewsForOne(d: State, e: Event, k: nat, c: nat, c': nat)
    requires PortsOk(d.conns) && e.SegmentArrives? && Addressed(d, e.id, e.s, k, c) && c' != c
    ensures News(d, e, c') == []
  {
    hide Enabled, PortsOk, Accepted, Addressed;
    if k' :| Addressed(d, e.id, e.s, k', c') {
      OneOwner(d, e.id, e.s, k, c, k', c');
    }
  }

  lemma NoNews(d: State, e: Event, c: nat)
    requires !e.SegmentArrives? || !Enabled(d, e) || !exists k :: Addressed(d, e.id, e.s, k, c)
    ensures News(d, e, c) == []
  {
  }

  lemma {:induction false} SegmentNews(d: State, e: Event, c: nat)
    requires Inv(d) && e.SegmentArrives? && Enabled(d, e)
    ensures Heard(Step(d, e), c) == Heard(d, c) + News(d, e, c)
  {
    RestApart(d);
    assert PortsOk(d.conns);
    hide InvBut, PortsOk, SegmentTo, News, Enabled, Heard, Apart, Step, Matches;
    if exists k, c' :: Addressed(d, e.id, e.s, k, c') {
      var k, c' := StepTo(d, e);
      NewsIs(d, e, k, c');
      if c != c' {
        NewsForOne(d, e, k, c', c);
      }
      SegmentHistory(d, k, c', e.s, e.ok, e.now, e.w, c);
    } else {
      NoNews(d, e, c);
      StepUnowned(d, e);
      StrayHistory(d, Disowned(d, e.id, e.s, e.ok).strays, c);
    }
  }

  lemma StrayHistory(d: State, strays: seq<Stray>, c: nat)
    ensures Heard(d.(strays := strays), c) == Heard(d, c) == Heard(d, c) + []
  {
  }

  lemma {:induction false} ServedHistory(d: State, e: Event, c: nat)
    requires Inv(d) && e.ClientServed? && Enabled(d, e)
    ensures Heard(Step(d, e), c) == Heard(d, c)
  {
    RestApart(d);
    hide InvBut, TurnOf, Heard, Apart, SegmentTo, Handle, Timeouts, Detach, Drain, Close, Version;
    var link := d.clients[e.c].link;
    if link.Some? && link.value in d.conns && d.conns[link.value].tcp.txWin < U16 * 256 {
      TurnHistory(d, link.value, e.c, e.ev, e.wrote, e.got, e.ok, e.now, e.w, c);
    }
  }

  lemma {:induction false} ClientHistory(d: State, e: Event, c: nat)
    requires Apart(d) && Enabled(d, e) && (e.CommandArrives? || e.ClientHangsUp? || e.ClientDrains?)
    ensures Heard(Step(d, e), c) == Heard(d, c)
  {
    assert e.c in d.clients;
    StepOf(d, e);
    hide Step, Handle, Close, Drain, Heard, Apart, Enabled;
    match e {
      case CommandArrives(c', cmd, w) => HandleHistory(d, c', cmd, w, c);
      case ClientHangsUp(c', w) => CloseHistory(d, c', w, c);
      case ClientDrains(c', n, w) => DrainHistory(d, c', n, w, c);
    }
  }

  lemma {:induction false} DeviceHistory(d: State, e: Event, c: nat)
    requires Apart(d) && Enabled(d, e) && (e.DeviceLeaves? || e.ClockTicks? || e.VersionArrives? || e.DeviceArrives?)
    ensures Heard(Step(d, e), c) == Heard(d, c)
  {
    StepOf(d, e);
    hide Step, Detach, Timeouts, Enabled, Broadcast;
    match e {
      case DeviceLeaves(id, w) => DetachHistory(d, id, w, c);
      case ClockTicks(ct, oks, clock, w) => ClockHistory(d, ct, oks, clock, w, c);
      case VersionArrives(id, major, ok) => BroadcastHistory(d, Attached(id), c);
      case DeviceArrives(usb, ok) =>
    }
  }

  lemma {:induction false} AcceptHistory(d: State, c: nat)
    requires Inv(d)
    ensures Heard(Step(d, Accept), c) == Heard(d, c)
  {
    RestApart(d);
    hide InvBut;
  }

  /** Every event adds to the record of a client exactly the payload it brings for it. */
  lemma {:induction false} StepNews(d: State, e: Event, c: nat)
    requires Inv(d)
    ensures Heard(Step(d, e), c) == Heard(d, c) + News(d, e, c)
  {
    hide InvBut, Step, Heard, News, Enabled;
    if !Enabled(d, e) {
      NoNews(d, e, c);
      StepDisabled(d, e);
    } else if e.SegmentArrives? {
      SegmentNews(d, e, c);
    } else if e.ClientServed? {
      NoNews(d, e, c);
      ServedHistory(d, e, c);
    } else {
      NoNews(d, e, c);
      RestApart(d);
      if e.Accept? {
        AcceptHistory(d, c);
      } else if e.CommandArrives? || e.ClientHangsUp? || e.ClientDrains? {
        ClientHistory(d, e, c);
      } else {
        DeviceHistory(d, e, c);
      }
    }
    assert Heard(d, c) + [] == Heard(d, c);
  }

  lemma {:induction false} RunNews(d: State, es: seq<Event>, c: nat)
    requires Inv(d)
    ensures Heard(Run(d, es), c) == Heard(d, c) + Payloads(d, es, c)
    decreases |es|
  {
    hide InvBut, Step, Heard, News;
    if es == [] {
      assert Heard(d, c) + [] == Heard(d, c);
    } else {
      StepNews(d, es[0], c);
      StepKeeps(d, es[0]);
      RunNews(Step(d, es[0]), es[1..], c);
      var rest := Payloads(Step(d, es[0]), es[1..], c);
      assert (Heard(d, c) + News(d, es[0], c)) + rest == Heard(d, c) + (News(d, es[0], c) + rest);
    }
  }

  /**
    For every run, whatever the devices send: the bytes written to a client and those still buffered
    for it are the payloads of the segments addressed to its connection that were accepted, all of
    them and in order; a client that is gone was given a prefix of these.
   */
  lemma {:induction false} DeliveredIsPayload(render: Render, es: seq<Event>, c: nat)
    ensures var d := Run(Boot(render), es);
            && (forall k :: Owns(d, c, k) && d.clients[c].state in {Connecting2, Streaming} ==>
                  d.clients[c].delivered + d.conns[k].tcp.ib == Payloads(Boot(render), es, c))
            && (c in d.clients || c in d.departed ==> Record(d, c).delivered <= Payloads(Boot(render), es, c))
  {
    var d := Run(Boot(render), es);
    assert Reachable(d);
    BootInv(render);
    RunNews(Boot(render), es, c);
    assert Heard(Boot(render), c) + Payloads(Boot(render), es, c) == Payloads(Boot(render), es, c);
    hide Run, InvBut, Payloads, Reachable;
    forall k | Owns(d, c, k) && d.clients[c].state in {Connecting2, Streaming}
      ensures d.clients[c].delivered + d.conns[k].tcp.ib == Payloads(Boot(render), es, c)
    {
      NothingLost(d, c, k);
    }
    if c in d.clients || c in d.departed {
      HandOver(d, c);
    }
  }
}
