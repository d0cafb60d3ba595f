/**
  One connection of the daemon and the device behind it. `Daemon` lets devices send anything and
  `Link` has a single connection; here a connection of the daemon is shown to take exactly the
  steps of a `Link` as long as its device is honest, whatever the other clients, connections and
  devices do meanwhile. The theorems of `Link` then hold in the daemon.
 */
module EndToEnd {
  import opened Words
  import opened Transport
  import opened Daemon
  import opened DaemonInv
  import opened DaemonSteps
  import opened DaemonRuns
  import opened DaemonTheorems
  import L = Link

  /** `a` is what is left of `b` after some elements at the front were consumed. */
  ghost predicate Tail(a: seq<Segment>, b: seq<Segment>) {
    |a| <= |b| && a == b[|b| - |a|..]
  }

  /** Connection `k`, its client and its part of the USB traffic are in the state of the link. */
  ghost predicate Mirrors(d: State, k: nat, l: L.State) {
    && k in d.conns && d.conns[k].client.Some? && d.conns[k].client.value in d.clients
    && l.live && l.c == d.conns[k].tcp
    && Tail(l.toDevice, SentFor(d.wire, k))
    && var cl := d.clients[d.conns[k].client.value];
      && (l.writable <==> cl.state == Streaming)
      && l.delivered == cl.delivered && l.accepted == cl.fromDevice && l.taken == cl.forwarded
  }

  /**
    The pipe from the device is FIFO: a segment for `k` is the next one the device has sent. So none of an
    earlier connection with the same two ports is left in the pipe when the source port is used again.
   */
  ghost predicate Faithful(d: State, e: Event, k: nat, l: L.State) {
    e.SegmentArrives? && k in Matches(d, e.id, e.s) ==> l.toHost != [] && e.s == l.toHost[0]
  }

  /** The step of the link that an event of the daemon amounts to. */
  ghost function Echo(d: State, e: Event, k: nat, l: L.State): L.State
    requires k in d.conns && L.Inv(l)
  {
    match e
    case SegmentArrives(id, s, ok, now, w) =>
      if Enabled(d, e) && k in Matches(d, id, s) then L.Step(l, L.HostTakes(ok, now, Writes(w, k))) else l
    case ClientServed(c, ev, wrote, got, ok, now, w) =>
      if Enabled(d, e) && d.conns[k].client == Some(c)
          then L.Step(l, L.ClientReady(ev, wrote, got, ok, now, Writes(w, k)))
          else l
    case ClientDrains(c, n, w) =>
      if Enabled(d, e) && d.conns[k].client == Some(c) && d.clients[c].state == Connecting2 && n >= |d.clients[c].ob|
      then L.Step(l, L.ClientOpens) else l
    case ClockTicks(ct, oks, clock, w) =>
      if k in Due(d, ct) then L.Step(l, L.AckTimer(k in oks, Time(clock, k), Writes(w, k))) else l
    case _ => l
  }

  // ---------------------------------------------------------------- other connections

  ghost predicate Alike(cl: Client, cl': Client) {
    cl'.state == cl.state && cl'.delivered == cl.delivered && cl'.fromDevice == cl.fromDevice
        && cl'.forwarded == cl.forwarded
  }

  /** Nothing about `k` has changed that the link can see. */
  ghost predicate Undisturbed(d: State, d': State, k: nat) {
    && k in d.conns && k in d'.conns && d'.conns[k] == d.conns[k] && d.conns[k].client.Some?
    && d.conns[k].client.value in d.clients && d.conns[k].client.value in d'.clients
    && Alike(d.clients[d.conns[k].client.value], d'.clients[d.conns[k].client.value])
    && SentFor(d'.wire, k) == SentFor(d.wire, k)
  }

  lemma UndisturbedMirrors(d: State, d': State, k: nat, l: L.State)
    requires Mirrors(d, k, l) && Undisturbed(d, d', k)
    ensures Mirrors(d', k, l)
  {
  }

  /** The client of connection `k`. */
  ghost predicate Owned(d: State, k: nat, c: nat) {
    && k in d.conns && c in d.clients && d.conns[k].client == Some(c) && d.clients[c].link == Some(k)
    && d.conns[k].tcp.txWin == TX_WINDOW && k < d.nextConn
    && forall c' :: c' in d.clients && c' != c ==> d.clients[c'].link != Some(k)
  }

  lemma OwnerOf(d: State, k: nat)
    requires Inv(d) && k in d.conns
    ensures d.conns[k].client.Some? && Owned(d, k, d.conns[k].client.value)
  {
    assert EntryOk(d, k);
    forall c' | c' in d.clients && c' != d.conns[k].client.value ensures d.clients[c'].link != Some(k) {
      assert SeatOk(d, c');
    }
  }

  lemma TearDownApart(d: State, ks: set<nat>, w: World, dead: bool, k: nat, c: nat)
    requires Owned(d, k, c) && k !in ks
    ensures Undisturbed(d, TearDown(d, ks, w, dead), k)
  {
  }

  lemma CloseApart(d: State, c': nat, w: World, k: nat, c: nat)
    requires Owned(d, k, c) && c' != c
    ensures Undisturbed(d, Close(d, c', w), k)
  {
  }

  /** A client whose connection is being set up takes it along when it goes. */
  lemma CloseTakes(d: State, w: World, k: nat, c: nat)
    requires Owned(d, k, c) && d.clients[c].state in {Connecting1, Connecting2}
    ensures k !in Close(d, c, w).conns
  {
  }

  lemma PutApart(d: State, k': nat, tcp: Conn, c': nat, cl: Client, out: seq<Segment>, k: nat, c: nat)
    requires Owned(d, k, c) && k' in d.conns && k' != k && c' != c && cl.link != Some(k)
    ensures Undisturbed(d, Put(d, k', tcp, c', cl, out), k) && Owned(Put(d, k', tcp, c', cl, out), k, c)
  {
  }

  lemma UndisturbedTrans(d: State, d1: State, d2: State, k: nat)
    requires Undisturbed(d, d1, k) && Undisturbed(d1, d2, k)
    ensures Undisturbed(d, d2, k)
  {
  }

  lemma {:induction false} SegmentApart(d: State, k': nat, c': nat, s: Segment, ok: bool, now: nat, w: World, k: nat,
                                        c: nat)
    requires Owned(d, k, c) && Owned(d, k', c') && k' != k
    ensures Undisturbed(d, SegmentTo(d, k', c', s, ok, now, w), k)
  {
    hide TearDown, Put, Undisturbed;
    var cl, tcp := d.clients[c'], d.conns[k'].tcp;
    var r := SegmentIn(tcp, s, ok, now);
    var cl1 := cl.(fromDevice := cl.fromDevice + Accepted(tcp, s));
    match r.verdict
    case Keep => PutApart(d, k', r.c, c', SetEvents(cl1, r.c.events), r.out, k, c);
    case Established => PutApart(d, k', r.c, c', SetEvents(Notified(d.render, cl1, RESULT_OK), r.c.events), r.out, k,
        c);
    case _ =>
      PutApart(d, k', r.c, c', cl1, r.out, k, c);
      var d1 := Put(d, k', r.c, c', cl1, r.out);
      TearDownApart(d1, {k'}, w, false, k, c);
      UndisturbedTrans(d, d1, TearDown(d1, {k'}, w, false), k);
  }

  lemma {:induction false} TurnApart(d: State, k': nat, c': nat, ev: Mask, wrote: int, got: Got, ok: bool, now: nat,
                                     w: World, k: nat, c: nat)
    requires Owned(d, k, c) && Owned(d, k', c') && k' != k
    ensures Undisturbed(d, TurnOf(d, k', c', ev, wrote, got, ok, now, w), k)
  {
    hide TearDown, Put, Undisturbed, ClientTurn;
    var cl, tcp := d.clients[c'], d.conns[k'].tcp;
    var t := ClientTurn(tcp, ev, wrote, got, ok, now);
    var gone := tcp.ib[..Min(t.written, |tcp.ib|)];
    var cl1 := cl.(sent := cl.sent + gone, delivered := cl.delivered + gone, forwarded := cl.forwarded + t.taken);
    if t.keep {
      PutApart(d, k', t.c, c', SetEvents(cl1, t.c.events), t.out, k, c);
    } else {
      PutApart(d, k', t.c, c', cl1, t.out, k, c);
      var d1 := Put(d, k', t.c, c', cl1, t.out);
      TearDownApart(d1, {k'}, w, false, k, c);
      UndisturbedTrans(d, d1, TearDown(d1, {k'}, w, false), k);
    }
  }

  lemma ReseatApart(d: State, c': nat, cl: Client, k: nat, c: nat)
    requires Owned(d, k, c) && c' in d.clients && c' != c && cl.link == d.clients[c'].link
    ensures Owned(d.(clients := d.clients[c' := cl]), k, c)
    ensures Undisturbed(d, d.(clients := d.clients[c' := cl]), k)
  {
  }

  lemma ConnectApart(d: State, c': nat, tag: u32, dev: nat, port: u16, synOk: bool, now: nat, k: nat, c: nat)
    requires Owned(d, k, c) && c' in d.clients && c' != c
    ensures Undisturbed(d, Connect(d, c', tag, dev, port, synOk, now), k)
  {
    hide Queue, Opening, AfterSend, Outgoing, On, PortsOn;
  }

  lemma {:induction false} ObeyApart(d: State, c': nat, cmd: Command, k: nat, c: nat)
    requires Owned(d, k, c) && c' in d.clients && c' != c
    ensures Undisturbed(d, Obey(d, c', cmd), k)
  {
    hide Queue, QueueAttached, Connect, Owned, Undisturbed;
    var cl := if cmd.plist then d.clients[c'].(version := 1) else d.clients[c'];
    ReseatApart(d, c', cl, k, c);
    var d1 := d.(clients := d.clients[c' := cl]);
    match cmd.op
    case ListenOp(order) =>
      OnlyClient(d1, c', QueueAttached(d.render, Queue(d.render, cl, cmd.tag, Reply(RESULT_OK)).(state := Listening),
          order), k, c);
      UndisturbedTrans(d, d1, Obey(d, c', cmd), k);
    case ConnectOp(dev, port, synOk, now) =>
      ConnectApart(d1, c', cmd.tag, dev, port, synOk, now, k, c);
      UndisturbedTrans(d, d1, Obey(d, c', cmd), k);
    case ConnectBad(code) =>
      OnlyClient(d1, c', Queue(d.render, cl.(asked := cl.asked + [cmd.tag]), cmd.tag, ConnectReply(code)), k, c);
      UndisturbedTrans(d, d1, Obey(d, c', cmd), k);
    case SavedOp(dev, known) =>
      if known && dev in d.devices && d.devices[dev].state == Active {
        var d2 := d1.(clients := Broadcast(d.render, d1.clients, NowPaired(dev)));
        BroadcastApart(d1, NowPaired(dev), d1.devices, k, c);
        BroadcastOwned(d1, NowPaired(dev), k, c);
        OnlyClient(d2, c', Queue(d.render, d2.clients[c'], cmd.tag, Reply(RESULT_OK)), k, c);
        UndisturbedTrans(d1, d2, Obey(d, c', cmd), k);
      } else {
        OnlyClient(d1, c', Queue(d.render, cl, cmd.tag, Reply(RESULT_OK)), k, c);
      }
      UndisturbedTrans(d, d1, Obey(d, c', cmd), k);
    case OtherOp(code) =>
      OnlyClient(d1, c', Queue(d.render, cl, cmd.tag, Reply(code)), k, c);
      UndisturbedTrans(d, d1, Obey(d, c', cmd), k);
    case Unreadable =>
  }

  lemma OnlyClient(d: State, c': nat, cl: Client, k: nat, c: nat)
    requires Owned(d, k, c) && c' in d.clients && c' != c
    ensures Undisturbed(d, d.(clients := d.clients[c' := cl]), k)
  {
  }

  lemma {:induction false} HandleApart(d: State, c': nat, cmd: Command, w: World, k: nat, c: nat)
    requires Owned(d, k, c) && c' in d.clients && c' != c
    ensures Undisturbed(d, Handle(d, c', cmd, w), k)
  {
    hide Close, Obey, Owned, Undisturbed;
    var cl := d.clients[c'];
    var cl1 := Queue(d.render, cl, cmd.tag, Reply(RESULT_BADCOMMAND));
    var d1 := d.(clients := d.clients[c' := cl1]);
    ReseatApart(d, c', cl1, k, c);
    CloseApart(d1, c', w, k, c);
    UndisturbedTrans(d, d1, Close(d1, c', w), k);
    ObeyApart(d, c', cmd, k, c);
    OnlyClient(d, c', BadVersion(d.render, cl, cmd), k, c);
  }

  lemma BroadcastOwned(d: State, note: Note, k: nat, c: nat)
    requires Owned(d, k, c)
    ensures Owned(d.(clients := Broadcast(d.render, d.clients, note)), k, c)
  {
  }

  lemma BroadcastApart(d: State, note: Note, devices: map<nat, Device>, k: nat, c: nat)
    requires Owned(d, k, c)
    ensures Undisturbed(d, d.(clients := Broadcast(d.render, d.clients, note), devices := devices), k)
  {
  }

  // ---------------------------------------------------------------- the connection itself

  lemma TailGrows(a: seq<Segment>, b: seq<Segment>, out: seq<Segment>)
    requires Tail(a, b)
    ensures Tail(a + out, b + out)
  {
  }

  /** What the link owes its invariant. */
  lemma LinkFacts(l: L.State)
    requires L.Inv(l) && l.live
    ensures l.c.txWin == TX_WINDOW && |l.toDevice| == |l.acksOut| && |l.toHost| == |l.acksIn|
    ensures l.writable ==> l.c.state == Connected
  {
  }

  /** The host side of the link after a step that emits `out`. */
  ghost predicate Moved(l: L.State, l': L.State, c: Conn, out: seq<Segment>) {
    l'.live && l'.c == c && l'.toDevice == l.toDevice + out && l'.writable == l.writable
  }

  lemma LinkTakes(l: L.State, ok: bool, now: nat, ws: seq<Write>)
    requires L.Inv(l) && l.live && l.toHost != []
    ensures var l' := L.Step(l, L.HostTakes(ok, now, ws));
            var r := SegmentIn(l.c, l.toHost[0], ok, now);
            && (r.verdict in {Keep, Established} ==>
                  Moved(l, l', r.c, r.out) && l'.delivered == l.delivered && l'.taken == l.taken)
            && l'.accepted == l.accepted + Accepted(l.c, l.toHost[0])
            && (r.verdict.Established? ==> !l.writable)
  {
  }

  lemma LinkServes(l: L.State, ev: Mask, wrote: int, got: Got, ok: bool, now: nat, ws: seq<Write>)
    requires L.Inv(l) && l.live && l.writable
    ensures var l' := L.Step(l, L.ClientReady(ev, wrote, got, ok, now, ws));
            var t := ClientTurn(l.c, ev, wrote, got, ok, now);
            t.keep ==>
              && Moved(l, l', t.c, t.out) && l'.accepted == l.accepted
              && l'.delivered == l.delivered + l.c.ib[..Min(t.written, |l.c.ib|)]
              && l'.taken == l.taken + t.taken
  {
    hide ClientTurn;
  }

  lemma LinkAcks(l: L.State, now: nat, ws: seq<Write>)
    requires L.Inv(l) && l.live && l.c.state == Connected && l.c.ackPending
    ensures var l' := L.Step(l, L.AckTimer(true, now, ws));
            var r := AckTurn(l.c, true, now);
            && Moved(l, l', r.c, [Outgoing(l.c, {ACK}, [])]) && l'.accepted == l.accepted
            && l'.delivered == l.delivered && l'.taken == l.taken
  {
    hide Refresh;
  }

  /** The daemon puts in the connection and the client what the link has. */
  lemma PutMirrors(d: State, k: nat, c: nat, cl: Client, out: seq<Segment>, l: L.State, l': L.State)
    requires Owned(d, k, c) && Mirrors(d, k, l) && Moved(l, l', l'.c, out)
    requires l'.writable <==> cl.state == Streaming
    requires l'.delivered == cl.delivered && l'.accepted == cl.fromDevice && l'.taken == cl.forwarded
    ensures Mirrors(Put(d, k, l'.c, c, cl, out), k, l')
  {
    TailGrows(l.toDevice, SentFor(d.wire, k), out);
  }

  /** The record of a client in the state of the link, except for the connection itself. */
  ghost predicate Level(cl: Client, l: L.State) {
    && cl.delivered == l.delivered && cl.fromDevice == l.accepted && cl.forwarded == l.taken
    && (l.writable <==> cl.state == Streaming)
  }

  lemma MirrorsLevel(d: State, k: nat, c: nat, l: L.State)
    requires Owned(d, k, c) && Mirrors(d, k, l)
    ensures Level(d.clients[c], l) && l.live && l.c == d.conns[k].tcp
  {
  }

  lemma OwnedKey(d: State, k: nat, c: nat)
    requires Owned(d, k, c)
    ensures k in d.conns && c in d.clients && d.conns[k].client == Some(c) && d.conns[k].tcp.txWin == TX_WINDOW
  {
  }

  lemma SetEventsLevel(cl: Client, m: Mask, l: L.State)
    requires Level(cl, l)
    ensures Level(SetEvents(cl, m), l)
  {
  }

  /** What becomes of the daemon when the segment is taken, when it completes the handshake, and otherwise. */
  lemma SegmentToIs(d: State, k: nat, c: nat, s: Segment, ok: bool, now: nat, w: World)
    requires k in d.conns && c in d.clients && d.conns[k].tcp.txWin < U16 * 256
    ensures var r := SegmentIn(d.conns[k].tcp, s, ok, now);
            var cl := d.clients[c].(fromDevice := d.clients[c].fromDevice + Accepted(d.conns[k].tcp, s));
            SegmentTo(d, k, c, s, ok, now, w) ==
              if r.verdict.Keep? then Put(d, k, r.c, c, SetEvents(cl, r.c.events), r.out)
              else if r.verdict.Established? then
                Put(d, k, r.c, c, SetEvents(Notified(d.render, cl, RESULT_OK), r.c.events), r.out)
              else TearDown(Put(d, k, r.c, c, cl, r.out), {k}, w, false)
  {
    hide SegmentIn, Accepted, Put, TearDown, Notified, SetEvents;
  }

  lemma MovedFacts(l: L.State, l': L.State, c: Conn, out: seq<Segment>)
    requires Moved(l, l', c, out)
    ensures l'.c == c && l'.writable == l.writable
  {
  }

  lemma {:induction false} SegmentKeptHits(d: State, k: nat, c: nat, ok: bool, now: nat, l: L.State, ws: seq<Write>)
    requires Owned(d, k, c) && Mirrors(d, k, l) && L.Inv(l) && l.toHost != []
    requires l.c.txWin < U16 * 256 && SegmentIn(l.c, l.toHost[0], ok, now).verdict.Keep?
    ensures var r := SegmentIn(l.c, l.toHost[0], ok, now);
            var cl := d.clients[c].(fromDevice := d.clients[c].fromDevice + Accepted(l.c, l.toHost[0]));
            Mirrors(Put(d, k, r.c, c, SetEvents(cl, r.c.events), r.out), k, L.Step(l, L.HostTakes(ok, now, ws)))
  {
    MirrorsLevel(d, k, c, l);
    LinkTakes(l, ok, now, ws);
    OwnedKey(d, k, c);
    hide Put, L.Inv, L.Step, SegmentIn, Accepted, Mirrors, Owned, Moved, SetEvents;
    var r, l' := SegmentIn(l.c, l.toHost[0], ok, now), L.Step(l, L.HostTakes(ok, now, ws));
    var cl := d.clients[c].(fromDevice := d.clients[c].fromDevice + Accepted(l.c, l.toHost[0]));
    MovedFacts(l, l', r.c, r.out);
    SetEventsLevel(cl, r.c.events, l');
    PutMirrors(d, k, c, SetEvents(cl, r.c.events), r.out, l, l');
  }

  lemma {:induction false} SegmentGrantHits(d: State, k: nat, c: nat, ok: bool, now: nat, l: L.State, ws: seq<Write>)
    requires Owned(d, k, c) && Mirrors(d, k, l) && L.Inv(l) && l.toHost != []
    requires l.c.txWin < U16 * 256 && SegmentIn(l.c, l.toHost[0], ok, now).verdict.Established?
    ensures var r := SegmentIn(l.c, l.toHost[0], ok, now);
            var cl := d.clients[c].(fromDevice := d.clients[c].fromDevice + Accepted(l.c, l.toHost[0]));
            Mirrors(Put(d, k, r.c, c, SetEvents(Notified(d.render, cl, RESULT_OK), r.c.events), r.out), k,
                    L.Step(l, L.HostTakes(ok, now, ws)))
  {
    MirrorsLevel(d, k, c, l);
    LinkTakes(l, ok, now, ws);
    OwnedKey(d, k, c);
    hide Put, L.Inv, L.Step, SegmentIn, Accepted, Mirrors, Owned, Moved, SetEvents, Notified;
    var r, l' := SegmentIn(l.c, l.toHost[0], ok, now), L.Step(l, L.HostTakes(ok, now, ws));
    var cl := d.clients[c].(fromDevice := d.clients[c].fromDevice + Accepted(l.c, l.toHost[0]));
    MovedFacts(l, l', r.c, r.out);
    NotifiedFacts(d.render, cl);
    SetEventsLevel(Notified(d.render, cl, RESULT_OK), r.c.events, l');
    PutMirrors(d, k, c, SetEvents(Notified(d.render, cl, RESULT_OK), r.c.events), r.out, l, l');
  }

  lemma {:induction false} SegmentHits(d: State, k: nat, c: nat, s: Segment, ok: bool, now: nat, w: World, l: L.State)
    requires Owned(d, k, c) && Mirrors(d, k, l) && L.Inv(l) && l.toHost != [] && s == l.toHost[0]
    ensures var d' := SegmentTo(d, k, c, s, ok, now, w);
            k in d'.conns ==> Mirrors(d', k, L.Step(l, L.HostTakes(ok, now, Writes(w, k))))
  {
    MirrorsLevel(d, k, c, l);
    OwnedKey(d, k, c);
    SegmentToIs(d, k, c, s, ok, now, w);
    hide TearDown, Put, L.Inv, L.Step, Notified, SegmentIn, SegmentTo, Accepted, Mirrors, Owned, SetEvents, Level;
    var r := SegmentIn(l.c, s, ok, now);
    match r.verdict
    case Keep => SegmentKeptHits(d, k, c, ok, now, l, Writes(w, k));
    case Established => SegmentGrantHits(d, k, c, ok, now, l, Writes(w, k));
    case _ =>
      var cl := d.clients[c].(fromDevice := d.clients[c].fromDevice + Accepted(l.c, s));
      TearDownTakes(Put(d, k, r.c, c, cl, r.out), k, w);
  }

  lemma NotifiedFacts(render: Render, cl: Client)
    ensures var cl' := Notified(render, cl, RESULT_OK);
            cl'.state == Connecting2 && cl'.delivered == cl.delivered && cl'.fromDevice == cl.fromDevice
                && cl'.forwarded == cl.forwarded
  {
  }

  lemma TearDownTakes(d: State, k: nat, w: World)
    ensures k !in TearDown(d, {k}, w, false).conns
  {
  }

  lemma {:induction false} TurnHits(d: State, k: nat, c: nat, ev: Mask, wrote: int, got: Got, ok: bool, now: nat,
                                    w: World, l: L.State)
    requires Owned(d, k, c) && Mirrors(d, k, l) && L.Inv(l) && d.clients[c].state == Streaming
    ensures var d' := TurnOf(d, k, c, ev, wrote, got, ok, now, w);
            k in d'.conns ==> Mirrors(d', k, L.Step(l, L.ClientReady(ev, wrote, got, ok, now, Writes(w, k))))
  {
    LinkServes(l, ev, wrote, got, ok, now, Writes(w, k));
    hide TearDown, Put, L.Inv, L.Step, ClientTurn;
    var t := ClientTurn(l.c, ev, wrote, got, ok, now);
    var l' := L.Step(l, L.ClientReady(ev, wrote, got, ok, now, Writes(w, k)));
    var cl := d.clients[c];
    var gone := l.c.ib[..Min(t.written, |l.c.ib|)];
    var cl1 := cl.(sent := cl.sent + gone, delivered := cl.delivered + gone, forwarded := cl.forwarded + t.taken);
    if t.keep {
      PutMirrors(d, k, c, SetEvents(cl1, t.c.events), t.out, l, l');
    } else {
      TearDownTakes(Put(d, k, t.c, c, cl1, t.out), k, w);
    }
  }

  lemma LinkOpens(l: L.State)
    requires L.Inv(l) && l.live && l.c.state == Connected
    ensures L.Step(l, L.ClientOpens) == l.(writable := true)
  {
  }

  lemma DrainIs(d: State, c: nat, n: int, w: World)
    requires c in d.clients
    ensures var cl := d.clients[c];
            Drain(d, c, n, w) ==
              if cl.ob == [] then d.(clients := d.clients[c := cl.(events := cl.events.(wr := false))])
              else if n <= 0 then Close(d, c, w)
              else d.(clients := d.clients[c := Drained(cl, Min(n, |cl.ob|))])
  {
    hide Close, Drained;
  }

  /** The socket took some bytes of the control stream. */
  lemma {:induction false} DrainedHits(d: State, k: nat, c: nat, n: nat, l: L.State)
    requires Owned(d, k, c) && Mirrors(d, k, l) && L.Inv(l) && d.clients[c].state != Streaming && n <= |d.clients[c].ob|
    requires d.clients[c].state == Connecting2 ==> d.conns[k].tcp.state == Connected
    ensures Mirrors(d.(clients := d.clients[c := Drained(d.clients[c], n)]), k,
                    if d.clients[c].state == Connecting2 && n == |d.clients[c].ob| then L.Step(l, L.ClientOpens) else l)
  {
    MirrorsLevel(d, k, c, l);
    OwnedKey(d, k, c);
    DrainedFacts(d.clients[c], n);
    if d.clients[c].state == Connecting2 {
      LinkOpens(l);
    }
    hide L.Inv, L.Step, Mirrors, Owned, Drained;
    var opens := d.clients[c].state == Connecting2 && n == |d.clients[c].ob|;
    ReseatMirrors(d, k, c, Drained(d.clients[c], n), l, if opens then l.(writable := true) else l);
  }

  lemma {:induction false} DrainHits(d: State, k: nat, c: nat, n: int, w: World, l: L.State)
    requires Inv(d) && Owned(d, k, c) && Mirrors(d, k, l) && L.Inv(l) && d.clients[c].state != Streaming
    ensures var d' := Drain(d, c, n, w);
            var opens := d.clients[c].state == Connecting2 && n >= |d.clients[c].ob|;
            k in d'.conns ==> Mirrors(d', k, if opens then L.Step(l, L.ClientOpens) else l)
  {
    MirrorsLevel(d, k, c, l);
    OwnedKey(d, k, c);
    OwnerState(d, k, c);
    DrainIs(d, c, n, w);
    hide InvBut, L.Inv, L.Step, Close, Mirrors, Owned, Drained, Drain;
    var cl := d.clients[c];
    if cl.ob == [] {
      ReseatMirrors(d, k, c, cl.(events := cl.events.(wr := false)), l, l);
    } else if n <= 0 {
      CloseTakes(d, w, k, c);
    } else {
      DrainedHits(d, k, c, Min(n, |cl.ob|), l);
    }
  }

  lemma DrainedFacts(cl: Client, n: nat)
    requires n <= |cl.ob| && cl.state != Streaming
    ensures var cl' := Drained(cl, n);
            && cl'.delivered == cl.delivered && cl'.fromDevice == cl.fromDevice && cl'.forwarded == cl.forwarded
            && cl'.state == if cl.state == Connecting2 && n == |cl.ob| then Streaming else cl.state
  {
  }

  lemma ReseatMirrors(d: State, k: nat, c: nat, cl: Client, l: L.State, l': L.State)
    requires Owned(d, k, c) && Mirrors(d, k, l) && l' == l.(writable := cl.state == Streaming)
    requires cl.delivered == d.clients[c].delivered && cl.fromDevice == d.clients[c].fromDevice
    requires cl.forwarded == d.clients[c].forwarded
    ensures Mirrors(d.(clients := d.clients[c := cl]), k, l')
  {
  }

  /** The owner of a connection is waiting for it or using it. */
  lemma OwnerState(d: State, k: nat, c: nat)
    requires Inv(d) && Owned(d, k, c)
    ensures d.clients[c].state in {Connecting1, Connecting2, Streaming} && c < d.nextClient
    ensures d.clients[c].state in {Connecting2, Streaming} ==> d.conns[k].tcp.state == Connected
    ensures d.clients[c].state == Connecting2 ==> d.clients[c].ob != [] && !d.clients[c].events.rd
  {
    SeatFacts(d, c);
    assert SeatOk(d, c);
    assert Linked(d.conns, d.clients[c]) == Some(d.conns[k].tcp) && Resting(d.conns[k].tcp);
  }

  lemma AckApart(d: State, ks: set<nat>, clock: Clock, k: nat, c: nat)
    requires Owned(d, k, c) && k !in ks
    ensures Undisturbed(d, AckAll(d, ks, clock), k) && Owned(AckAll(d, ks, clock), k, c)
  {
  }

  lemma AckedHere(d: State, ks: set<nat>, clock: Clock, k: nat, c: nat)
    requires Owned(d, k, c) && k in ks
    ensures var d' := AckAll(d, ks, clock);
            && Owned(d', k, c) && d'.conns[k].tcp == AckTurn(d.conns[k].tcp, true, Time(clock, k)).c
            && Alike(d.clients[c], d'.clients[c])
            && SentFor(d'.wire, k) == SentFor(d.wire, k) + [Outgoing(d.conns[k].tcp, {ACK}, [])]
  {
    AckWindow(d.conns[k].tcp, Time(clock, k));
    AckedWire(d, ks, clock, k);
    hide AckTurn, LoggedAll, SentFor;
  }

  lemma AckedWire(d: State, ks: set<nat>, clock: Clock, k: nat)
    requires k in d.conns && d.conns[k].tcp.txWin == TX_WINDOW && k in ks
    ensures SentFor(AckAll(d, ks, clock).wire, k) == SentFor(d.wire, k) + [Outgoing(d.conns[k].tcp, {ACK}, [])]
  {
    hide Acked, AckedClient;
  }

  lemma AckWindow(tcp: Conn, now: nat)
    requires tcp.txWin < U16 * 256
    ensures AckTurn(tcp, true, now).c.txWin == tcp.txWin
  {
  }

  lemma {:induction false} AckHits(d: State, ks: set<nat>, clock: Clock, k: nat, c: nat, l: L.State, ws: seq<Write>)
    requires Owned(d, k, c) && k in ks && Mirrors(d, k, l) && L.Inv(l)
    requires d.conns[k].tcp.state == Connected && d.conns[k].tcp.ackPending
    ensures Owned(AckAll(d, ks, clock), k, c)
    ensures Mirrors(AckAll(d, ks, clock), k, L.Step(l, L.AckTimer(true, Time(clock, k), ws)))
  {
    LinkAcks(l, Time(clock, k), ws);
    AckedHere(d, ks, clock, k, c);
    hide L.Inv, L.Step, Refresh, AckAll, Owned, Tail;
    TailGrows(l.toDevice, SentFor(d.wire, k), [Outgoing(l.c, {ACK}, [])]);
    MirrorsIntro(AckAll(d, ks, clock), k, c, L.Step(l, L.AckTimer(true, Time(clock, k), ws)));
  }

  lemma {:induction false} MirrorsIntro(d: State, k: nat, c: nat, l: L.State)
    requires Owned(d, k, c) && l.live && l.c == d.conns[k].tcp && Tail(l.toDevice, SentFor(d.wire, k))
    requires l.writable <==> d.clients[c].state == Streaming
    requires l.delivered == d.clients[c].delivered
    requires l.accepted == d.clients[c].fromDevice && l.taken == d.clients[c].forwarded
    ensures Mirrors(d, k, l)
  {
  }

  lemma {:induction false} ClockTracks(d: State, ct: nat, oks: set<nat>, clock: Clock, w: World, k: nat, c: nat,
                                       l: L.State)
    requires Owned(d, k, c) && Mirrors(d, k, l) && L.Inv(l)
    ensures var d' := Timeouts(d, ct, oks, clock, w);
            k in d'.conns ==> Mirrors(d', k, if k in Due(d, ct)
                then L.Step(l, L.AckTimer(k in oks, Time(clock, k), Writes(w, k)))
                else l)
  {
    LinkFacts(l);
    hide TearDown, AckAll, L.Step, Mirrors, Undisturbed, Owned;
    var due := Due(d, ct);
    var d1 := AckAll(d, due * oks, clock);
    if k in due {
      if k in oks {
        AckHits(d, due * oks, clock, k, c, l, Writes(w, k));
        TearDownApart(d1, due - oks, w, false, k, c);
        UndisturbedMirrors(d1, TearDown(d1, due - oks, w, false), k,
            L.Step(l, L.AckTimer(true, Time(clock, k), Writes(w, k))));
      } else {
        TearDownTakesAll(d1, due - oks, k, w);
      }
    } else {
      AckApart(d, due * oks, clock, k, c);
      TearDownApart(d1, due - oks, w, false, k, c);
      UndisturbedMirrors(d, d1, k, l);
      UndisturbedMirrors(d1, TearDown(d1, due - oks, w, false), k, l);
    }
  }

  lemma TearDownTakesAll(d: State, ks: set<nat>, k: nat, w: World)
    requires k in ks
    ensures k !in TearDown(d, ks, w, false).conns
  {
  }

  lemma {:induction false} DetachTracks(d: State, id: nat, w: World, k: nat, c: nat, l: L.State)
    requires Owned(d, k, c) && Mirrors(d, k, l)
    ensures k in Detach(d, id, w).conns ==> Mirrors(Detach(d, id, w), k, l)
  {
    hide TearDown, Mirrors, Broadcast;
    if id in d.devices && d.devices[id].state == Active {
      var ks := On(d, id);
      if k in ks {
        DetachTakes(d, id, w, k);
      } else {
        var d1 := TearDown(d, ks, w, true);
        TearDownApart(d, ks, w, true, k, c);
        TearDownOwned(d, ks, w, true, k, c);
        BroadcastApart(d1, Detached(id), d1.devices - {id}, k, c);
        UndisturbedTrans(d, d1, Detach(d, id, w), k);
        UndisturbedMirrors(d, Detach(d, id, w), k, l);
      }
    } else {
      OnlyDevices(d, d.devices - {id}, k, c, l);
      OnlyDevices(d, d.devices, k, c, l);
    }
  }

  lemma DetachTakes(d: State, id: nat, w: World, k: nat)
    requires id in d.devices && d.devices[id].state == Active && k in On(d, id)
    ensures k !in Detach(d, id, w).conns
  {
  }

  lemma TearDownOwned(d: State, ks: set<nat>, w: World, dead: bool, k: nat, c: nat)
    requires Owned(d, k, c) && k !in ks
    ensures Owned(TearDown(d, ks, w, dead), k, c)
  {
  }

  lemma OnlyDevices(d: State, devices: map<nat, Device>, k: nat, c: nat, l: L.State)
    requires Owned(d, k, c) && Mirrors(d, k, l)
    ensures Mirrors(d.(devices := devices), k, l)
  {
  }

  // ---------------------------------------------------------------- every event

  lemma StepServed(d: State, e: Event, k: nat)
    requires Enabled(d, e) && e.ClientServed? && Owned(d, k, e.c)
    ensures Step(d, e) == TurnOf(d, k, e.c, e.ev, e.wrote, e.got, e.ok, e.now, e.w)
  {
    hide TurnOf;
  }

  lemma {:induction false} CommandTracks(d: State, c': nat, cmd: Command, w: World, k: nat, c: nat, l: L.State)
    requires Owned(d, k, c) && Mirrors(d, k, l) && c' in d.clients
    requires c' == c ==> d.clients[c].state == Connecting1
    ensures k in Handle(d, c', cmd, w).conns ==> Mirrors(Handle(d, c', cmd, w), k, l)
  {
    hide Mirrors, Handle, Owned;
    if c' == c {
      HandleTakes(d, c, cmd, w, k);
    } else {
      HandleApart(d, c', cmd, w, k, c);
      UndisturbedMirrors(d, Handle(d, c', cmd, w), k, l);
    }
  }

  /** A command from a client that waits for its connection ends both. */
  lemma HandleTakes(d: State, c: nat, cmd: Command, w: World, k: nat)
    requires Owned(d, k, c) && d.clients[c].state == Connecting1
    ensures k !in Handle(d, c, cmd, w).conns
  {
    hide Close;
    var cl := Queue(d.render, d.clients[c], cmd.tag, Reply(RESULT_BADCOMMAND));
    CloseTakes(d.(clients := d.clients[c := cl]), w, k, c);
  }

  lemma HangUpTracks(d: State, c': nat, w: World, k: nat, c: nat, l: L.State)
    requires Owned(d, k, c) && Mirrors(d, k, l) && c' in d.clients
    requires c' == c ==> d.clients[c].state in {Connecting1, Connecting2}
    ensures k in Close(d, c', w).conns ==> Mirrors(Close(d, c', w), k, l)
  {
    hide Mirrors, Close, Owned;
    if c' == c {
      CloseTakes(d, w, k, c);
    } else {
      CloseApart(d, c', w, k, c);
      UndisturbedMirrors(d, Close(d, c', w), k, l);
    }
  }

  lemma DrainApart(d: State, c': nat, n: int, w: World, k: nat, c: nat)
    requires Owned(d, k, c) && c' in d.clients && c' != c
    ensures Undisturbed(d, Drain(d, c', n, w), k)
  {
    hide Close, Owned, Undisturbed, Drained;
    var cl := d.clients[c'];
    if cl.ob == [] {
      OnlyClient(d, c', cl.(events := cl.events.(wr := false)), k, c);
    } else if n <= 0 {
      CloseApart(d, c', w, k, c);
    } else {
      OnlyClient(d, c', Drained(cl, Min(n, |cl.ob|)), k, c);
    }
  }

  lemma EchoDrains(d: State, e: Event, k: nat, c: nat, l: L.State)
    requires L.Inv(l) && Owned(d, k, c) && e.ClientDrains? && Enabled(d, e)
    ensures e.c in d.clients && d.clients[e.c].state != Streaming
    ensures Echo(d, e, k, l) ==
            if e.c == c && d.clients[c].state == Connecting2
                && e.n >= |d.clients[c].ob| then L.Step(l, L.ClientOpens) else l
  {
    hide L.Step;
  }

  lemma {:induction false} DrainTracks(d: State, e: Event, k: nat, c: nat, l: L.State)
    requires Inv(d) && L.Inv(l) && Owned(d, k, c) && Mirrors(d, k, l) && e.ClientDrains? && Enabled(d, e)
    ensures k in Step(d, e).conns ==> Mirrors(Step(d, e), k, Echo(d, e, k, l))
  {
    StepOf(d, e);
    EchoDrains(d, e, k, c, l);
    hide InvBut, L.Inv, L.Step, Mirrors, Drain, Step, Enabled, Echo, Owned, Undisturbed;
    if e.c == c {
      DrainHits(d, k, c, e.n, e.w, l);
    } else {
      DrainApart(d, e.c, e.n, e.w, k, c);
      UndisturbedMirrors(d, Step(d, e), k, l);
    }
  }

  lemma EchoServed(d: State, e: Event, k: nat, c: nat, l: L.State)
    requires L.Inv(l) && Owned(d, k, c) && e.ClientServed? && Enabled(d, e)
    ensures e.c in d.clients && d.clients[e.c].state == Streaming
    ensures Echo(d, e, k, l) ==
            if e.c == c then L.Step(l, L.ClientReady(e.ev, e.wrote, e.got, e.ok, e.now, Writes(e.w, k))) else l
  {
    hide L.Step;
  }

  lemma SameConnection(d: State, k: nat, k': nat, c: nat)
    requires Owned(d, k, c) && Owned(d, k', c)
    ensures k == k'
  {
  }

  lemma OtherConnection(d: State, k: nat, c: nat, k': nat, c': nat)
    requires Owned(d, k, c) && Owned(d, k', c') && c != c'
    ensures k != k'
  {
  }

  lemma {:induction false} ServedTracks(d: State, e: Event, k: nat, c: nat, l: L.State)
    requires Inv(d) && L.Inv(l) && Owned(d, k, c) && Mirrors(d, k, l) && e.ClientServed? && Enabled(d, e)
    ensures k in Step(d, e).conns ==> Mirrors(Step(d, e), k, Echo(d, e, k, l))
  {
    EchoServed(d, e, k, c, l);
    hide InvBut, L.Inv, L.Step, Mirrors, TurnOf, Step, Enabled, Echo, Owned, Undisturbed;
    var k' := Serves(d, e.c);
    StepServed(d, e, k');
    if e.c == c {
      SameConnection(d, k, k', c);
      TurnHits(d, k, c, e.ev, e.wrote, e.got, e.ok, e.now, e.w, l);
    } else {
      OtherConnection(d, k, c, k', e.c);
      TurnApart(d, k', e.c, e.ev, e.wrote, e.got, e.ok, e.now, e.w, k, c);
      UndisturbedMirrors(d, Step(d, e), k, l);
    }
  }

  /** The connection of a client that is served. */
  lemma {:induction false} Serves(d: State, c: nat) returns (k: nat)
    requires Inv(d) && c in d.clients && d.clients[c].state == Streaming
    ensures Owned(d, k, c)
  {
    SeatFacts(d, c);
    assert SeatOk(d, c);
    k := d.clients[c].link.value;
    OwnerOf(d, k);
  }

  lemma EchoSegment(d: State, e: Event, k: nat, l: L.State)
    requires L.Inv(l) && k in d.conns && e.SegmentArrives? && Faithful(d, e, k, l) && Enabled(d, e)
    ensures Echo(d, e, k, l) ==
            if k in Matches(d, e.id, e.s) then L.Step(l, L.HostTakes(e.ok, e.now, Writes(e.w, k))) else l
    ensures k in Matches(d, e.id, e.s) ==> l.toHost != [] && e.s == l.toHost[0]
  {
    hide L.Step;
  }

  lemma {:induction false} SegmentTracks(d: State, e: Event, k: nat, c: nat, l: L.State)
    requires Inv(d) && L.Inv(l) && Owned(d, k, c) && Mirrors(d, k, l)
    requires e.SegmentArrives? && Faithful(d, e, k, l) && Enabled(d, e)
    ensures k in Step(d, e).conns ==> Mirrors(Step(d, e), k, Echo(d, e, k, l))
  {
    EchoSegment(d, e, k, l);
    hide InvBut, L.Inv, L.Step, Mirrors, SegmentTo, Step, Matches, Owned, Enabled, Echo, Undisturbed, Faithful;
    if exists k', c' :: Addressed(d, e.id, e.s, k', c') {
      var k', c' := StepSegment(d, e);
      OneMatch(d, e.id, e.s, k, k');
      if k' == k {
        SameOwner(d, k, c, c');
        SegmentHits(d, k, c, e.s, e.ok, e.now, e.w, l);
      } else {
        SegmentApart(d, k', c', e.s, e.ok, e.now, e.w, k, c);
        UndisturbedMirrors(d, Step(d, e), k, l);
      }
    } else {
      NotAddressed(d, e.id, e.s, k, c);
      StepUnowned(d, e);
      StrayMirrors(d, Disowned(d, e.id, e.s, e.ok).strays, k, l);
    }
  }

  lemma SameOwner(d: State, k: nat, c: nat, c': nat)
    requires Owned(d, k, c) && Owned(d, k, c')
    ensures c == c'
  {
  }

  lemma {:induction false} StepSegment(d: State, e: Event) returns (k: nat, c: nat)
    requires Inv(d) && e.SegmentArrives? && Enabled(d, e)
    requires exists k, c :: Addressed(d, e.id, e.s, k, c)
    ensures Owned(d, k, c) && k in Matches(d, e.id, e.s)
    ensures Step(d, e) == SegmentTo(d, k, c, e.s, e.ok, e.now, e.w)
  {
    hide InvBut, SegmentTo, Enabled;
    k, c :| Addressed(d, e.id, e.s, k, c) && Step(d, e) == SegmentTo(d, k, c, e.s, e.ok, e.now, e.w);
    OwnerOf(d, k);
  }

  lemma {:induction false} OneMatch(d: State, id: nat, s: Segment, k: nat, k': nat)
    requires Inv(d) && k in d.conns && k' in Matches(d, id, s)
    ensures k in Matches(d, id, s) <==> k == k'
  {
    assert PortsOk(d.conns);
  }

  lemma NotAddressed(d: State, id: nat, s: Segment, k: nat, c: nat)
    requires Owned(d, k, c) && !exists k', c' :: Addressed(d, id, s, k', c')
    ensures k !in Matches(d, id, s)
  {
    assert !Addressed(d, id, s, k, c);
  }

  lemma StrayMirrors(d: State, strays: seq<Stray>, k: nat, l: L.State)
    requires Mirrors(d, k, l)
    ensures Mirrors(d.(strays := strays), k, l)
  {
  }

  lemma AcceptMirrors(d: State, k: nat, c: nat, l: L.State)
    requires Owned(d, k, c) && c < d.nextClient && Mirrors(d, k, l)
    ensures Mirrors(d.(clients := d.clients[d.nextClient := Fresh()], nextClient := d.nextClient + 1), k, l)
  {
  }

  lemma {:induction false} VersionMirrors(d: State, id: nat, major: nat, ok: bool, k: nat, c: nat, l: L.State)
    requires Owned(d, k, c) && Mirrors(d, k, l)
    ensures Mirrors(Version(d, id, major, ok), k, l)
  {
    hide Mirrors, Broadcast, Owned;
    if id in d.devices {
      OnlyDevices(d, d.devices - {id}, k, c, l);
      var devices := d.devices[id := d.devices[id].(state := Active, visible := true, version := major)];
      BroadcastApart(d, Attached(id), devices, k, c);
      UndisturbedMirrors(d, d.(clients := Broadcast(d.render, d.clients, Attached(id)), devices := devices), k, l);
      StrayMirrors(Activated(d, id, major), Version(d, id, major, ok).strays, k, l);
    }
  }

  lemma AttachMirrors(d: State, usb: nat, ok: bool, k: nat, l: L.State)
    requires Mirrors(d, k, l)
    ensures Mirrors(Attach(d, usb, ok), k, l)
  {
  }

  /** As long as its device is honest, a connection takes the steps of the link. */
  lemma {:induction false} EventTracks(d: State, e: Event, k: nat, l: L.State)
    requires Inv(d) && L.Inv(l) && Mirrors(d, k, l) && Faithful(d, e, k, l)
    ensures k in Step(d, e).conns ==> Mirrors(Step(d, e), k, Echo(d, e, k, l))
  {
    OwnerOf(d, k);
    var c := d.conns[k].client.value;
    hide InvBut, L.Inv, Mirrors, Owned, Step, Echo, Faithful, Enabled;
    if !Enabled(d, e) {
      StepDisabled(d, e);
      EchoDisabled(d, e, k, l);
    } else if e.ClientServed? {
      ServedTracks(d, e, k, c, l);
    } else if e.SegmentArrives? {
      SegmentTracks(d, e, k, c, l);
    } else if e.ClientDrains? {
      DrainTracks(d, e, k, c, l);
    } else {
      OtherTracks(d, e, k, c, l);
    }
  }

  lemma EchoOther(d: State, e: Event, k: nat, l: L.State)
    requires L.Inv(l) && k in d.conns && !e.ClientServed? && !e.SegmentArrives? && !e.ClientDrains?
    ensures Echo(d, e, k, l) ==
            if e.ClockTicks? && k in Due(d, e.ct)
                then L.Step(l, L.AckTimer(k in e.oks, Time(e.clock, k), Writes(e.w, k)))
                else l
  {
    hide L.Step;
  }

  lemma EchoDisabled(d: State, e: Event, k: nat, l: L.State)
    requires L.Inv(l) && k in d.conns && !Enabled(d, e)
    ensures Echo(d, e, k, l) == l
  {
    hide L.Step;
  }

  /** Which owners of a connection can be read for commands. */
  lemma ReadByDaemon(d: State, e: Event, k: nat, c: nat)
    requires Inv(d) && Owned(d, k, c) && Enabled(d, e)
    ensures e.CommandArrives? || e.ClientHangsUp? ==>
        e.c in d.clients && (e.c == c ==> d.clients[c].state == Connecting1)
  {
    hide InvBut, Enabled, Owned;
    ReadsEnabled(d, e);
    if (e.CommandArrives? || e.ClientHangsUp?) && e.c == c {
      OwnerState(d, k, c);
    }
  }

  lemma ReadsEnabled(d: State, e: Event)
    requires Enabled(d, e)
    ensures e.CommandArrives? || e.ClientHangsUp? ==>
        e.c in d.clients && d.clients[e.c].state != Streaming && d.clients[e.c].events.rd
  {
    hide Sensible, Early;
  }

  lemma {:induction false} ReadTracks(d: State, e: Event, k: nat, c: nat, l: L.State)
    requires Inv(d) && L.Inv(l) && Owned(d, k, c) && Mirrors(d, k, l) && Enabled(d, e)
    requires e.CommandArrives? || e.ClientHangsUp?
    ensures k in Step(d, e).conns ==> Mirrors(Step(d, e), k, l)
  {
    ReadByDaemon(d, e, k, c);
    hide InvBut, L.Inv, Mirrors, Owned, Step, Handle, Close, Enabled, Undisturbed;
    StepOf(d, e);
    if e.CommandArrives? {
      CommandTracks(d, e.c, e.cmd, e.w, k, c, l);
    } else {
      HangUpTracks(d, e.c, e.w, k, c, l);
    }
  }

  lemma {:induction false} DeviceTracks(d: State, e: Event, k: nat, c: nat, l: L.State)
    requires Owned(d, k, c) && c < d.nextClient && Mirrors(d, k, l) && Enabled(d, e)
    requires e.Accept? || e.DeviceArrives? || e.VersionArrives? || e.DeviceLeaves?
    ensures k in Step(d, e).conns ==> Mirrors(Step(d, e), k, l)
  {
    StepOf(d, e);
    hide Mirrors, Owned, Step, Attach, Version, Detach, Enabled;
    match e {
      case Accept => AcceptMirrors(d, k, c, l);
      case DeviceArrives(usb, ok) => AttachMirrors(d, usb, ok, k, l);
      case VersionArrives(id, major, ok) => VersionMirrors(d, id, major, ok, k, c, l);
      case DeviceLeaves(id, w) => DetachTracks(d, id, w, k, c, l);
    }
  }

  lemma {:induction false} OtherTracks(d: State, e: Event, k: nat, c: nat, l: L.State)
    requires Inv(d) && L.Inv(l) && Owned(d, k, c) && Mirrors(d, k, l) && Enabled(d, e)
    requires !e.ClientServed? && !e.SegmentArrives? && !e.ClientDrains?
    ensures k in Step(d, e).conns ==> Mirrors(Step(d, e), k, Echo(d, e, k, l))
  {
    assert k in d.conns;
    hide InvBut, L.Inv, L.Step, Mirrors, Owned, Step, Timeouts, Echo, Due, Enabled;
    EchoOther(d, e, k, l);
    if e.CommandArrives? || e.ClientHangsUp? {
      ReadTracks(d, e, k, c, l);
    } else if e.ClockTicks? {
      StepOf(d, e);
      ClockTracks(d, e.ct, e.oks, e.clock, e.w, k, c, l);
    } else {
      OwnerState(d, k, c);
      DeviceTracks(d, e, k, c, l);
    }
  }

  lemma {:induction false} EchoInv(d: State, e: Event, k: nat, l: L.State)
    requires k in d.conns && L.Inv(l)
    ensures L.Inv(Echo(d, e, k, l))
  {
    hide L.Step;
    match e {
      case SegmentArrives(id, s, ok, now, w) => L.StepKeeps(l, L.HostTakes(ok, now, Writes(w, k)));
      case ClientServed(c, ev, wrote, got, ok, now, w) =>
          L.StepKeeps(l, L.ClientReady(ev, wrote, got, ok, now, Writes(w, k)));
      case ClientDrains(c, n, w) => L.StepKeeps(l, L.ClientOpens);
      case ClockTicks(ct, oks, clock, w) => L.StepKeeps(l, L.AckTimer(k in oks, Time(clock, k), Writes(w, k)));
      case _ =>
    }
  }

  // ---------------------------------------------------------------- runs

  /** A moment in a run: something happens to the daemon, or the device behind `k` does something. */
  datatype Tick = Host(e: Event) | Device(move: L.Event)

  predicate ByDevice(e: L.Event) {
    e.PeerTakes? || e.PeerSends? || e.PeerResets?
  }

  /** A run in which `k` is not torn down and the pipe from its device is FIFO. */
  ghost predicate Course(d: State, k: nat, l: L.State, ts: seq<Tick>)
    requires k in d.conns && L.Inv(l)
    decreases |ts|
  {
    ts == [] ||
    match ts[0]
    case Host(e) =>
      EchoInv(d, e, k, l);
      Faithful(d, e, k, l) && k in Step(d, e).conns && Course(Step(d, e), k, Echo(d, e, k, l), ts[1..])
    case Device(e) =>
      L.StepKeeps(l, e);
      ByDevice(e) && Course(d, k, L.Step(l, e), ts[1..])
  }

  datatype Pair = Pair(d: State, l: L.State)

  ghost function After(d: State, k: nat, l: L.State, ts: seq<Tick>): (p: Pair)
    requires k in d.conns && L.Inv(l) && Course(d, k, l, ts)
    ensures L.Inv(p.l)
    decreases |ts|
  {
    if ts == [] then Pair(d, l) else
    match ts[0]
    case Host(e) =>
      EchoInv(d, e, k, l);
      After(Step(d, e), k, Echo(d, e, k, l), ts[1..])
    case Device(e) =>
      L.StepKeeps(l, e);
      After(d, k, L.Step(l, e), ts[1..])
  }

  /** What the device does is not the daemon's doing. */
  lemma DeviceTicks(d: State, k: nat, l: L.State, e: L.Event)
    requires Mirrors(d, k, l) && L.Inv(l) && ByDevice(e)
    ensures Mirrors(d, k, L.Step(l, e))
  {
    DeviceSide(l, e);
    hide L.Step, L.Inv;
  }

  lemma DeviceSide(l: L.State, e: L.Event)
    requires L.Inv(l) && ByDevice(e)
    ensures var l' := L.Step(l, e);
            && l'.c == l.c && l'.live == l.live && l'.writable == l.writable && l'.delivered == l.delivered
            && l'.accepted == l.accepted && l'.taken == l.taken
            && (l'.toDevice == l.toDevice || (l.toDevice != [] && l'.toDevice == l.toDevice[1..]))
  {
    hide L.Inbound, L.Outbound, L.Data, Settled, Wrap, L.MaySend;
  }

  lemma CourseHost(d: State, k: nat, l: L.State, ts: seq<Tick>)
    requires k in d.conns && L.Inv(l) && Course(d, k, l, ts) && ts != [] && ts[0].Host?
    ensures var e := ts[0].e;
            && L.Inv(Echo(d, e, k, l)) && Faithful(d, e, k, l) && k in Step(d, e).conns
            && Course(Step(d, e), k, Echo(d, e, k, l), ts[1..])
            && After(d, k, l, ts) == After(Step(d, e), k, Echo(d, e, k, l), ts[1..])
  {
    hide L.Inv, L.Step, Faithful, Step, Echo;
    EchoInv(d, ts[0].e, k, l);
  }

  lemma CourseDevice(d: State, k: nat, l: L.State, ts: seq<Tick>)
    requires k in d.conns && L.Inv(l) && Course(d, k, l, ts) && ts != [] && ts[0].Device?
    ensures var l' := L.Step(l, ts[0].move);
            && ByDevice(ts[0].move) && L.Inv(l') && Course(d, k, l', ts[1..])
            && After(d, k, l, ts) == After(d, k, l', ts[1..])
  {
    L.StepKeeps(l, ts[0].move);
    hide L.Inv, L.Step;
  }

  lemma {:induction false} CourseTracks(d: State, k: nat, l: L.State, ts: seq<Tick>)
    requires Inv(d) && L.Inv(l) && Mirrors(d, k, l) && Course(d, k, l, ts)
    ensures var p := After(d, k, l, ts); Inv(p.d) && Mirrors(p.d, k, p.l)
    decreases |ts|
  {
    assert k in d.conns;
    if ts != [] {
      hide InvBut, L.Inv, L.Step, Mirrors, Faithful, Step, Echo, Course, After;
      match ts[0] {
        case Host(e) =>
          CourseHost(d, k, l, ts);
          EventTracks(d, e, k, l);
          StepKeeps(d, e);
          CourseTracks(Step(d, e), k, Echo(d, e, k, l), ts[1..]);
        case Device(e) =>
          CourseDevice(d, k, l, ts);
          DeviceTicks(d, k, l, e);
          CourseTracks(d, k, L.Step(l, e), ts[1..]);
      }
    }
  }

  /** Connection `k` has just been made for a Connect command; `l` is its link. */
  ghost predicate Launched(d: State, c: nat, cmd: Command, w: World, d': State, k: nat, l: L.State): (b: bool)
    ensures b ==> k in d'.conns && L.Inv(l)
  {
    && Enabled(d, CommandArrives(c, cmd, w)) && cmd.op.ConnectOp?
    && d' == Step(d, CommandArrives(c, cmd, w)) && k == d.nextConn && k in d'.conns
    && var tcp := d'.conns[k].tcp;
      L.StartInv(tcp.sport, tcp.dport, cmd.op.now);
      l == L.Start(tcp.sport, tcp.dport, cmd.op.now)
  }

  lemma {:induction false} ConnectStarts(d: State, c: nat, cmd: Command, w: World, d': State, k: nat, l: L.State)
    requires Inv(d) && Launched(d, c, cmd, w, d', k, l)
    ensures Inv(d') && L.Inv(l) && Mirrors(d', k, l)
  {
    NewConnection(d);
    StepKeeps(d, CommandArrives(c, cmd, w));
    StepOf(d, CommandArrives(c, cmd, w));
    HandleConnects(d, c, cmd, w);
    L.StartInv(d'.conns[k].tcp.sport, d'.conns[k].tcp.dport, cmd.op.now);
    Untouched(d, c);
    hide InvBut, L.Inv, Step, Enabled, Handle, Connect;
    var cl := if cmd.plist then d.clients[c].(version := 1) else d.clients[c];
    var op := cmd.op;
    ConnectMirrors(d.(clients := d.clients[c := cl]), c, cmd.tag, op.dev, op.port, op.synOk, op.now, l);
  }

  /** Only a Connect in the command state can make a connection. */
  lemma HandleConnects(d: State, c: nat, cmd: Command, w: World)
    requires c in d.clients && cmd.op.ConnectOp? && d.nextConn !in d.conns && d.nextConn in Handle(d, c, cmd, w).conns
    ensures d.clients[c].state == Commanding
    ensures var cl := if cmd.plist then d.clients[c].(version := 1) else d.clients[c];
            Handle(d, c, cmd, w) == Connect(d.(clients := d.clients[c := cl]), c, cmd.tag, cmd.op.dev, cmd.op.port,
                cmd.op.synOk, cmd.op.now)
  {
    hide Close, Connect, Queue;
    CloseConns(d.(clients := d.clients[c := Queue(d.render, d.clients[c], cmd.tag, Reply(RESULT_BADCOMMAND))]), c, w);
  }

  /** A client that may issue commands has seen nothing of any device. */
  lemma Untouched(d: State, c: nat)
    requires Inv(d) && c in d.clients && d.clients[c].state == Commanding
    ensures d.clients[c].delivered == d.clients[c].fromDevice == d.clients[c].forwarded == []
  {
    SeatFacts(d, c);
  }

  lemma ConnectMirrors(d: State, c: nat, tag: u32, dev: nat, port: u16, synOk: bool, now: nat, l: L.State)
    requires c in d.clients && d.nextConn !in d.conns && d.nextConn in Connect(d, c, tag, dev, port, synOk, now).conns
    requires d.clients[c].delivered == d.clients[c].fromDevice == d.clients[c].forwarded == []
    requires var tcp := Connect(d, c, tag, dev, port, synOk, now).conns[d.nextConn].tcp;
             l == L.Start(tcp.sport, tcp.dport, now)
    ensures Mirrors(Connect(d, c, tag, dev, port, synOk, now), d.nextConn, l)
  {
    hide Queue, On, PortsOn;
  }

  lemma NewConnection(d: State)
    requires Inv(d)
    ensures d.nextConn !in d.conns
  {
    assert forall k :: k in d.conns ==> EntryOk(d, k);
  }

  lemma CloseConns(d: State, c: nat, w: World)
    ensures forall k :: k in Close(d, c, w).conns ==> k in d.conns
  {
  }

  lemma {:induction false} EchoReachable(d: State, e: Event, k: nat, l: L.State)
    requires k in d.conns && L.Inv(l) && L.Reachable(l)
    ensures L.Reachable(Echo(d, e, k, l))
  {
    hide L.Step, L.Inv, L.Reachable, Enabled;
    match e {
      case SegmentArrives(id, s, ok, now, w) => L.ReachableStep(l, L.HostTakes(ok, now, Writes(w, k)));
      case ClientServed(c, ev, wrote, got, ok, now, w) =>
        L.ReachableStep(l, L.ClientReady(ev, wrote, got, ok, now, Writes(w, k)));
      case ClientDrains(c, n, w) => L.ReachableStep(l, L.ClientOpens);
      case ClockTicks(ct, oks, clock, w) => L.ReachableStep(l, L.AckTimer(k in oks, Time(clock, k), Writes(w, k)));
      case _ =>
    }
  }

  /** The steps of the link along a run of the daemon are a run of the link. */
  lemma {:induction false} CourseReachable(d: State, k: nat, l: L.State, ts: seq<Tick>)
    requires k in d.conns && L.Inv(l) && L.Reachable(l) && Course(d, k, l, ts)
    ensures L.Reachable(After(d, k, l, ts).l)
    decreases |ts|
  {
    hide L.Step, L.Inv, L.Reachable, Faithful, Step, Echo;
    if ts != [] {
      match ts[0] {
        case Host(e) =>
          EchoInv(d, e, k, l);
          EchoReachable(d, e, k, l);
          CourseReachable(Step(d, e), k, Echo(d, e, k, l), ts[1..]);
        case Device(e) =>
          L.StepKeeps(l, e);
          L.ReachableStep(l, e);
          CourseReachable(d, k, L.Step(l, e), ts[1..]);
      }
    }
  }

  /**
    What connection `k` owes its client and its device. The receive buffer, with all that is on its
    way, stays within the window of 131072 bytes. What the client has been given, what is buffered
    and what is on its way is the stream the device has sent. The device has rejected nothing; what
    it has accepted is a prefix of what was read from the client, and with what is on its way all of
    it. The acknowledgement and sequence numbers are the wrapped positions in the two streams.
   */
  ghost predicate Delivers(d: State, k: nat, l: L.State) {
    && k in d.conns && d.conns[k].client.Some? && d.conns[k].client.value in d.clients
    && var conn, cl, device := d.conns[k].tcp, d.clients[d.conns[k].client.value], l.peer;
      && |conn.ib| + |L.Data(l.toHost)| <= TX_WINDOW
      && cl.delivered + conn.ib + L.Data(l.toHost) == device.sent
      && !device.rejected && device.rcvd <= cl.forwarded
      && (conn.state == Connected ==>
            conn.txAck == Wrap(1 + |cl.delivered|) && conn.txSeq == Wrap(1 + |cl.forwarded|))
      && (conn.state == Connected && device.phase == L.Open ==> device.rcvd + L.Data(l.toDevice) == cl.forwarded)
  }

  /**
    How an established connection `k` is paced. `sendable` is the least of the true room in the
    device's window and the two limits; an acknowledgement is pending exactly when delivered bytes
    are unacknowledged; and when the device may not send another byte, something is in the pipe, in
    the buffer or on the timer that will let it.
   */
  ghost predicate Paced(d: State, k: nat, l: L.State) {
    && k in d.conns && d.conns[k].client.Some? && d.conns[k].client.value in d.clients
    && var conn, cl, device := d.conns[k].tcp, d.clients[d.conns[k].client.value], l.peer;
      conn.state == Connected ==>
        && conn.sendable ==
             Min(Max(0, l.heard + conn.rxWin - (1 + |cl.forwarded|)), Min(CONN_OUTBUF_SIZE, MAX_PAYLOAD))
        && (conn.ackPending <==> l.acked != 1 + |cl.delivered|)
        && (device.phase == L.Open && !L.MaySend(device, 1) ==>
              l.toDevice != [] || l.toHost != [] || conn.events.wr || conn.ackPending)
  }

  /**
    End to end, for every run: from the moment a Connect is given a connection, and for as long as
    the connection lasts and its device is honest, the connection serves both sides exactly,
    whatever the daemon does for other clients and other devices, hostile ones included.
   */
  lemma {:induction false} ServedFaithfully(d: State, c: nat, cmd: Command, w: World, d': State, k: nat, l: L.State,
                                            ts: seq<Tick>)
    requires Reachable(d) && Launched(d, c, cmd, w, d', k, l) && Course(d', k, l, ts)
    ensures var p := After(d', k, l, ts); Delivers(p.d, k, p.l) && Paced(p.d, k, p.l)
  {
    hide InvBut, Launched, Course, After, Step, L.Inv, L.Reachable, Mirrors, Delivers, Paced;
    ServedLink(d, c, cmd, w, d', k, l, ts);
    var p := After(d', k, l, ts);
    MirrorsDelivers(p.d, k, p.l);
    MirrorsPaced(p.d, k, p.l);
  }

  lemma MirrorsDelivers(d: State, k: nat, l: L.State)
    requires Mirrors(d, k, l) && L.Inv(l)
    ensures Delivers(d, k, l)
  {
    LinkTheorems(l);
    hide L.Inv, L.Data, Tail;
  }

  lemma MirrorsPaced(d: State, k: nat, l: L.State)
    requires Mirrors(d, k, l) && L.Reachable(l)
    ensures Paced(d, k, l)
  {
    hide L.Reachable, Tail, L.MaySend;
    if l.c.state == Connected {
      LinkPace(l);
    }
  }

  /** The connection mirrors a reachable state of the link. */
  lemma {:induction false} ServedLink(d: State, c: nat, cmd: Command, w: World, d': State, k: nat, l: L.State,
                                      ts: seq<Tick>)
    requires Reachable(d) && Launched(d, c, cmd, w, d', k, l) && Course(d', k, l, ts)
    ensures var p := After(d', k, l, ts); Inv(p.d) && Mirrors(p.d, k, p.l) && L.Reachable(p.l)
  {
    LaunchedReachable(d, c, cmd, w, d', k, l);
    hide InvBut, Launched, Course, After, Step, L.Inv, L.Reachable;
    ReachableInv(d);
    ConnectStarts(d, c, cmd, w, d', k, l);
    CourseTracks(d', k, l, ts);
    CourseReachable(d', k, l, ts);
  }

  lemma LaunchedReachable(d: State, c: nat, cmd: Command, w: World, d': State, k: nat, l: L.State)
    requires Launched(d, c, cmd, w, d', k, l)
    ensures L.Reachable(l)
  {
    hide Step, Enabled;
    L.StartReachable(d'.conns[k].tcp.sport, d'.conns[k].tcp.dport, cmd.op.now);
  }

  /** Every data segment of the next turn starts at position `at` of the stream and ends before `edge`. */
  ghost predicate InWindow(conn: Conn, at: nat, edge: int, ev: Mask, wrote: int, got: Got, ok: bool, now: nat) {
    && conn.txWin < U16 * 256
    && forall s | s in ClientTurn(conn, ev, wrote, got, ok, now).out ::
         s.seqno == Wrap(at) && 0 < |s.payload| && at + |s.payload| <= edge
  }

  lemma LinkInWindow(l: L.State, ev: Mask, wrote: int, got: Got, ok: bool, now: nat)
    requires L.Reachable(l) && l.live && l.c.state == Connected
    ensures InWindow(l.c, 1 + |l.taken|, l.heard + l.c.rxWin, ev, wrote, got, ok, now)
  {
    L.SegmentInWindow(l, ev, wrote, got, ok, now);
    hide L.Reachable, ClientTurn;
  }

  lemma MirrorsInWindow(d: State, k: nat, l: L.State, ev: Mask, wrote: int, got: Got, ok: bool, now: nat)
    requires Mirrors(d, k, l) && L.Reachable(l)
    ensures var conn, cl := d.conns[k].tcp, d.clients[d.conns[k].client.value];
            conn.state == Connected ==>
              InWindow(conn, 1 + |cl.forwarded|, l.heard + conn.rxWin, ev, wrote, got, ok, now)
  {
    hide L.Reachable, InWindow, Tail;
    if l.c.state == Connected {
      LinkInWindow(l, ev, wrote, got, ok, now);
    }
  }

  lemma MirrorsKeys(d: State, k: nat, l: L.State)
    requires Mirrors(d, k, l)
    ensures k in d.conns && d.conns[k].client.Some? && d.conns[k].client.value in d.clients
  {
  }

  /** The next data segment starts at the stream position and ends inside the last window received. */
  lemma {:induction false} ServedInWindow(d: State, c: nat, cmd: Command, w: World, d': State, k: nat, l: L.State,
                                          ts: seq<Tick>, ev: Mask, wrote: int, got: Got, ok: bool, now: nat)
    requires Reachable(d) && Launched(d, c, cmd, w, d', k, l) && Course(d', k, l, ts)
    ensures var p := After(d', k, l, ts);
            && k in p.d.conns && p.d.conns[k].client.Some? && p.d.conns[k].client.value in p.d.clients
            && var conn, cl := p.d.conns[k].tcp, p.d.clients[p.d.conns[k].client.value];
              conn.state == Connected ==>
                InWindow(conn, 1 + |cl.forwarded|, p.l.heard + conn.rxWin, ev, wrote, got, ok, now)
  {
    hide InvBut, Launched, Course, After, Step, L.Inv, L.Reachable, InWindow, Mirrors;
    ServedLink(d, c, cmd, w, d', k, l, ts);
    var p := After(d', k, l, ts);
    MirrorsKeys(p.d, k, p.l);
    MirrorsInWindow(p.d, k, p.l, ev, wrote, got, ok, now);
  }

  /** And the next segment of an honest device never overflows the receive buffer. */
  lemma {:induction false} NoOverflow(d: State, c: nat, cmd: Command, w: World, d': State, k: nat, l: L.State,
                                      ts: seq<Tick>, ok: bool, now: nat)
    requires Reachable(d) && Launched(d, c, cmd, w, d', k, l) && Course(d', k, l, ts)
    requires After(d', k, l, ts).l.toHost != []
    ensures var p := After(d', k, l, ts);
            k in p.d.conns && p.d.conns[k].tcp.txWin < U16 * 256 &&
            !SegmentIn(p.d.conns[k].tcp, p.l.toHost[0], ok, now).verdict.Overflow?
  {
    ServedLink(d, c, cmd, w, d', k, l, ts);
    hide InvBut, Launched, Course, After, Step, L.Inv, L.Reachable, SegmentIn;
    var p := After(d', k, l, ts);
    LinkFacts(p.l);
    LinkRoom(p.l, ok, now);
  }

  lemma LinkRoom(l: L.State, ok: bool, now: nat)
    requires L.Inv(l) && l.live && l.toHost != []
    ensures l.c.txWin < U16 * 256 && !SegmentIn(l.c, l.toHost[0], ok, now).verdict.Overflow?
  {
    L.Bounded(l);
    assert l.toHost[0].flags == {ACK} ==> |L.Data(l.toHost)| >= |l.toHost[0].payload|;
  }

  lemma LinkTheorems(l: L.State)
    requires L.Inv(l) && l.live
    ensures |l.c.ib| + |L.Data(l.toHost)| <= TX_WINDOW
    ensures l.delivered + l.c.ib + L.Data(l.toHost) == l.peer.sent
    ensures !l.peer.rejected && l.peer.rcvd <= l.taken
    ensures l.c.state == Connected ==> l.c.txAck == Wrap(1 + |l.delivered|) && l.c.txSeq == Wrap(1 + |l.taken|)
    ensures l.c.state == Connected && l.peer.phase == L.Open ==> l.peer.rcvd + L.Data(l.toDevice) == l.taken
  {
    L.Bounded(l);
  }

  lemma LinkPace(l: L.State)
    requires L.Reachable(l) && l.live && l.c.state == Connected
    ensures l.c.sendable == Min(Max(0, l.heard + l.c.rxWin - (1 + |l.taken|)), Min(CONN_OUTBUF_SIZE, MAX_PAYLOAD))
    ensures l.c.ackPending <==> l.acked != 1 + |l.delivered|
    ensures l.peer.phase == L.Open && !L.MaySend(l.peer, 1) ==>
              l.toDevice != [] || l.toHost != [] || l.c.events.wr || l.c.ackPending
  {
    hide L.Reachable;
    L.SendableExact(l);
    L.PendingExact(l);
    if l.peer.phase == L.Open && !L.MaySend(l.peer, 1) {
      L.NoWindowDeadlock(l);
    }
  }
}
