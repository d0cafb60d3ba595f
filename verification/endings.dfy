/**
  The step that ends a connection. Whatever it is, the record of the client then has what the
  teardown of the link leaves: the flush is part of the delivered stream.
 */
module Endings {
  import opened Words
  import opened Transport
  import opened Daemon
  import opened DaemonInv
  import opened DaemonSteps
  import opened DaemonRuns
  import opened DaemonTheorems
  import opened EndToEnd
  import L = Link

  /** The link is over, and the record of client `c` has its streams. */
  ghost predicate Ended(d: State, c: nat, l: L.State) {
    && !l.live && (c in d.clients || c in d.departed)
    && var cl := Record(d, c);
      cl.delivered == l.delivered && cl.fromDevice == l.accepted && cl.forwarded == l.taken
  }

  /** The step of the link that the event amounts to when it ends connection `k`. */
  ghost function Finale(d: State, e: Event, k: nat, l: L.State): L.State
    requires L.Inv(l)
  {
    match e
    case SegmentArrives(id, s, ok, now, w) => L.Step(l, L.HostTakes(ok, now, Writes(w, k)))
    case ClientServed(c, ev, wrote, got, ok, now, w) =>
      L.Step(l, L.ClientReady(ev, wrote, got, ok, now, Writes(w, k)))
    case ClockTicks(ct, oks, clock, w) => L.Step(l, L.AckTimer(false, Time(clock, k), Writes(w, k)))
    case DeviceLeaves(id, w) => L.Step(l, L.HostCloses(Writes(w, k)))
    case CommandArrives(c, cmd, w) => L.Step(l, L.HostCloses(Writes(w, k)))
    case ClientHangsUp(c, w) => L.Step(l, L.HostCloses(Writes(w, k)))
    case ClientDrains(c, n, w) => L.Step(l, L.HostCloses(Writes(w, k)))
    case _ => l
  }

  // ---------------------------------------------------------------- teardown and close

  /** What the teardown of connection `k`, with others, leaves of its client. */
  lemma {:induction false} TearDownEnds(d: State, ks: set<nat>, w: World, dead: bool, k: nat, c: nat, l: L.State)
    requires Owned(d, k, c) && k in ks && Level(d.clients[c], l) && (Unborn(d.conns[k].tcp) ==> !l.writable)
    ensures Ended(TearDown(d, ks, w, dead), c, L.Teardown(l, d.conns[k].tcp, Writes(w, k)))
    ensures c in TearDown(d, ks, w, dead).clients ==> TearDown(d, ks, w, dead).clients[c].state == Commanding
  {
    hide LoggedAll, Resets, Queue, FlushRoom;
    var cl, tcp := d.clients[c], d.conns[k].tcp;
    assert Hit(cl, d.conns, ks);
    if Unborn(tcp) {
      RefusedFacts(d.render, cl);
      assert l.delivered + tcp.ib[..0] == l.delivered;
    }
  }

  lemma RefusedFacts(render: Render, cl: Client)
    ensures var cl' := Notified(render, cl, RESULT_CONNREFUSED);
            && cl'.state == Commanding && cl'.delivered == cl.delivered
            && cl'.fromDevice == cl.fromDevice && cl'.forwarded == cl.forwarded
  {
  }

  /** A client that closes while its connection is being set up has nothing to lose. */
  lemma {:induction false} CloseEnds(d: State, w: World, k: nat, c: nat, l: L.State, ws: seq<Write>)
    requires c in d.clients && Level(d.clients[c], l) && !l.writable
    ensures Ended(Close(d, c, w), c, L.Teardown(l, l.c, ws))
  {
    hide LoggedAll, Resets, FlushRoom;
    assert l.delivered + l.c.ib[..0] == l.delivered;
  }

  // ---------------------------------------------------------------- every event

  lemma LinkCloses(l: L.State, ws: seq<Write>)
    requires L.Inv(l) && l.live
    ensures L.Step(l, L.HostCloses(ws)) == L.Teardown(l, l.c, ws)
  {
  }

  lemma LinkAckFails(l: L.State, now: nat, ws: seq<Write>)
    requires L.Inv(l) && l.live && l.c.state == Connected && l.c.ackPending
    ensures L.Step(l, L.AckTimer(false, now, ws)) == L.Teardown(l, l.c, ws)
  {
  }

  /** The link as it stands when a segment makes the host give up. */
  ghost function Taken(l: L.State): L.State
    requires l.toHost != [] && |l.toHost| == |l.acksIn|
  {
    l.(toHost := l.toHost[1..], acksIn := l.acksIn[1..], heard := l.acksIn[0],
       accepted := l.accepted + Accepted(l.c, l.toHost[0]))
  }

  lemma LinkDrops(l: L.State, ok: bool, now: nat, ws: seq<Write>)
    requires L.Inv(l) && l.live && l.toHost != []
    requires SegmentIn(l.c, l.toHost[0], ok, now).verdict in {Drop, Overflow}
    ensures |l.toHost| == |l.acksIn|
    ensures var l', r := L.Step(l, L.HostTakes(ok, now, ws)), SegmentIn(l.c, l.toHost[0], ok, now);
            var l1 := L.Teardown(Taken(l), r.c, ws);
            && !l'.live && l'.delivered == l1.delivered && l'.accepted == l1.accepted && l'.taken == l1.taken
            && (Unborn(r.c) ==> !l.writable)
  {
    hide FlushRoom;
  }

  lemma {:induction false} SegmentEnds(d: State, k: nat, c: nat, s: Segment, ok: bool, now: nat, w: World, l: L.State)
    requires Owned(d, k, c) && Mirrors(d, k, l) && L.Inv(l) && l.toHost != [] && s == l.toHost[0]
    requires k !in SegmentTo(d, k, c, s, ok, now, w).conns
    ensures Ended(SegmentTo(d, k, c, s, ok, now, w), c, L.Step(l, L.HostTakes(ok, now, Writes(w, k))))
  {
    SegmentIs(d, k, c, s, ok, now, w);
    LinkDrops(l, ok, now, Writes(w, k));
    ReactionKeepsWindow(l.c, s, ok, now);
    hide TearDown, L.Inv, L.Step, L.Teardown, SegmentIn, Accepted;
    var r := SegmentIn(l.c, s, ok, now);
    var cl := d.clients[c].(fromDevice := d.clients[c].fromDevice + Accepted(l.c, s));
    PutOwned(d, k, r.c, c, cl, r.out);
    TearDownEnds(Put(d, k, r.c, c, cl, r.out), {k}, w, false, k, c, Taken(l));
  }

  /** A segment ends its connection exactly by a verdict to drop it. */
  lemma SegmentIs(d: State, k: nat, c: nat, s: Segment, ok: bool, now: nat, w: World)
    requires Owned(d, k, c) && k !in SegmentTo(d, k, c, s, ok, now, w).conns
    ensures var r := SegmentIn(d.conns[k].tcp, s, ok, now);
            var cl := d.clients[c].(fromDevice := d.clients[c].fromDevice + Accepted(d.conns[k].tcp, s));
            && r.verdict in {Drop, Overflow}
            && SegmentTo(d, k, c, s, ok, now, w) == TearDown(Put(d, k, r.c, c, cl, r.out), {k}, w, false)
  {
    hide TearDown, SegmentIn, Accepted, Notified, SetEvents, Logged;
  }

  lemma ReactionKeepsWindow(c: Conn, s: Segment, ok: bool, now: nat)
    requires c.txWin < U16 * 256
    ensures SegmentIn(c, s, ok, now).c.txWin == c.txWin
  {
  }

  lemma PutOwned(d: State, k: nat, tcp: Conn, c: nat, cl: Client, out: seq<Segment>)
    requires Owned(d, k, c) && tcp.txWin == TX_WINDOW && cl.link == d.clients[c].link
    ensures Owned(Put(d, k, tcp, c, cl, out), k, c)
    ensures Put(d, k, tcp, c, cl, out).conns[k].tcp == tcp && Put(d, k, tcp, c, cl, out).clients[c] == cl
  {
  }

  lemma LinkGivesUp(l: L.State, ev: Mask, wrote: int, got: Got, ok: bool, now: nat, ws: seq<Write>)
    requires L.Inv(l) && l.live && l.writable && !ClientTurn(l.c, ev, wrote, got, ok, now).keep
    ensures var t := ClientTurn(l.c, ev, wrote, got, ok, now);
            var l1 := l.(delivered := l.delivered + l.c.ib[..Min(t.written, |l.c.ib|)], taken := l.taken + t.taken);
            L.Step(l, L.ClientReady(ev, wrote, got, ok, now, ws)) == L.Teardown(l1, t.c, ws)
            && t.c.txWin == l.c.txWin && t.c.state == Connected
  {
    hide FlushRoom;
  }

  lemma {:induction false} TurnEnds(d: State, k: nat, c: nat, ev: Mask, wrote: int, got: Got, ok: bool, now: nat,
                                    w: World, l: L.State)
    requires Owned(d, k, c) && Mirrors(d, k, l) && L.Inv(l) && d.clients[c].state == Streaming
    requires k !in TurnOf(d, k, c, ev, wrote, got, ok, now, w).conns
    ensures Ended(TurnOf(d, k, c, ev, wrote, got, ok, now, w), c,
                  L.Step(l, L.ClientReady(ev, wrote, got, ok, now, Writes(w, k))))
  {
    TurnIs(d, k, c, ev, wrote, got, ok, now, w);
    MirrorsLevel(d, k, c, l);
    LinkGivesUp(l, ev, wrote, got, ok, now, Writes(w, k));
    OwnedKey(d, k, c);
    hide TearDown, L.Inv, L.Step, L.Teardown, ClientTurn, Put, Ended, Mirrors, Owned, TurnOf;
    var t := ClientTurn(l.c, ev, wrote, got, ok, now);
    var cl := d.clients[c];
    var gone := l.c.ib[..Min(t.written, |l.c.ib|)];
    var cl1 := cl.(sent := cl.sent + gone, delivered := cl.delivered + gone, forwarded := cl.forwarded + t.taken);
    var l1 := l.(delivered := l.delivered + gone, taken := l.taken + t.taken);
    PutOwned(d, k, t.c, c, cl1, t.out);
    TearDownEnds(Put(d, k, t.c, c, cl1, t.out), {k}, w, false, k, c, l1);
  }

  lemma TurnIs(d: State, k: nat, c: nat, ev: Mask, wrote: int, got: Got, ok: bool, now: nat, w: World)
    requires Owned(d, k, c) && k !in TurnOf(d, k, c, ev, wrote, got, ok, now, w).conns
    ensures var tcp := d.conns[k].tcp;
            var t := ClientTurn(tcp, ev, wrote, got, ok, now);
            var cl, gone := d.clients[c], tcp.ib[..Min(t.written, |tcp.ib|)];
            var cl1 := cl.(sent := cl.sent + gone, delivered := cl.delivered + gone,
                forwarded := cl.forwarded + t.taken);
            && !t.keep
            && TurnOf(d, k, c, ev, wrote, got, ok, now, w) == TearDown(Put(d, k, t.c, c, cl1, t.out), {k}, w, false)
  {
    hide TearDown, ClientTurn, SetEvents, Logged;
  }

  lemma {:induction false} ClockEnds(d: State, ct: nat, oks: set<nat>, clock: Clock, w: World, k: nat, c: nat,
                                     l: L.State)
    requires Owned(d, k, c) && Mirrors(d, k, l) && L.Inv(l)
    requires k !in Timeouts(d, ct, oks, clock, w).conns
    ensures Ended(Timeouts(d, ct, oks, clock, w), c, L.Step(l, L.AckTimer(false, Time(clock, k), Writes(w, k))))
  {
    TimeoutKeys(d, ct, oks, clock, w);
    LinkFacts(l);
    hide TearDown, AckAll, L.Step, L.Inv, L.Teardown, Mirrors, Owned;
    var due := Due(d, ct);
    var d1 := AckAll(d, due * oks, clock);
    OwnedKey(d, k, c);
    MirrorsLevel(d, k, c, l);
    assert k in due - oks;
    AckApart(d, due * oks, clock, k, c);
    LinkAckFails(l, Time(clock, k), Writes(w, k));
    TearDownEnds(d1, due - oks, w, false, k, c, l);
  }

  lemma {:induction false} DetachEnds(d: State, id: nat, w: World, k: nat, c: nat, l: L.State)
    requires Owned(d, k, c) && Mirrors(d, k, l) && L.Inv(l) && k !in Detach(d, id, w).conns
    ensures Ended(Detach(d, id, w), c, L.Step(l, L.HostCloses(Writes(w, k))))
  {
    MirrorsLevel(d, k, c, l);
    OwnedKey(d, k, c);
    LinkFacts(l);
    LinkCloses(l, Writes(w, k));
    DetachIs(d, id, w, k);
    hide TearDown, L.Step, L.Inv, L.Teardown, Mirrors, Owned, Detach, Broadcast, On;
    var d1 := TearDown(d, On(d, id), w, true);
    TearDownEnds(d, On(d, id), w, true, k, c, l);
    BroadcastEnds(d1, id, c, L.Teardown(l, l.c, Writes(w, k)));
  }

  lemma DetachIs(d: State, id: nat, w: World, k: nat)
    requires k in d.conns && k !in Detach(d, id, w).conns
    ensures k in On(d, id) && id in d.devices
    ensures var d1 := TearDown(d, On(d, id), w, true);
            Detach(d, id, w) == d1.(devices := d1.devices - {id},
                clients := Broadcast(d.render, d1.clients, Detached(id)))
  {
    hide Broadcast, LoggedAll, Resets, Aftermath;
  }

  /** News of the device is for listeners, and this client is none. */
  lemma BroadcastEnds(d: State, id: nat, c: nat, l: L.State)
    requires Ended(d, c, l) && (c in d.clients ==> d.clients[c].state == Commanding)
    ensures Ended(d.(devices := d.devices - {id}, clients := Broadcast(d.render, d.clients, Detached(id))), c, l)
  {
  }

  lemma {:induction false} HangUpEnds(d: State, w: World, k: nat, c: nat, l: L.State)
    requires Owned(d, k, c) && Mirrors(d, k, l) && L.Inv(l) && d.clients[c].state != Streaming
    ensures Ended(Close(d, c, w), c, L.Step(l, L.HostCloses(Writes(w, k))))
  {
    MirrorsLevel(d, k, c, l);
    LinkCloses(l, Writes(w, k));
    CloseEnds(d, w, k, c, l, Writes(w, k));
  }

  /** A command from a client that waits for its connection. */
  lemma {:induction false} HandleEnds(d: State, cmd: Command, w: World, k: nat, c: nat, l: L.State)
    requires Owned(d, k, c) && Mirrors(d, k, l) && L.Inv(l) && d.clients[c].state == Connecting1
    ensures Ended(Handle(d, c, cmd, w), c, L.Step(l, L.HostCloses(Writes(w, k))))
  {
    MirrorsLevel(d, k, c, l);
    LinkCloses(l, Writes(w, k));
    hide L.Step, L.Inv, L.Teardown, Close, Mirrors;
    var cl := Queue(d.render, d.clients[c], cmd.tag, Reply(RESULT_BADCOMMAND));
    CloseEnds(d.(clients := d.clients[c := cl]), w, k, c, l, Writes(w, k));
  }

  lemma {:induction false} DrainEnds(d: State, n: int, w: World, k: nat, c: nat, l: L.State)
    requires Owned(d, k, c) && Mirrors(d, k, l) && L.Inv(l) && d.clients[c].state != Streaming
    requires k !in Drain(d, c, n, w).conns
    ensures Ended(Drain(d, c, n, w), c, L.Step(l, L.HostCloses(Writes(w, k))))
  {
    assert Drain(d, c, n, w) == Close(d, c, w) by {
      hide Close;
    }
    hide Drain, Close;
    HangUpEnds(d, w, k, c, l);
  }

  lemma {:induction false} ServingApart(d: State, e: Event, k: nat, c: nat, k': nat)
    requires Owned(d, k, c) && Enabled(d, e) && e.ClientServed? && e.c != c && Owned(d, k', e.c)
    ensures k in Step(d, e).conns
  {
    StepServed(d, e, k');
    OtherConnection(d, k, c, k', e.c);
    hide Step, TurnOf, Undisturbed, Owned, Enabled;
    TurnApart(d, k', e.c, e.ev, e.wrote, e.got, e.ok, e.now, e.w, k, c);
    UndisturbedKey(d, Step(d, e), k);
  }

  lemma ServedIs(d: State, e: Event)
    requires Enabled(d, e) && e.ClientServed?
    ensures e.c in d.clients && d.clients[e.c].state == Streaming
  {
  }

  /** Serving a client ends no connection but its own. */
  lemma {:induction false} EndedByServing(d: State, e: Event, k: nat, c: nat)
    requires Inv(d) && Owned(d, k, c) && Enabled(d, e) && e.ClientServed? && k !in Step(d, e).conns
    ensures e.c == c && c in d.clients && d.clients[c].state == Streaming
  {
    hide InvBut, Step, Owned, Enabled;
    ServedIs(d, e);
    if e.c != c {
      var k' := Serves(d, e.c);
      ServingApart(d, e, k, c, k');
    }
  }

  lemma {:induction false} QuietEvents(d: State, e: Event)
    requires Enabled(d, e) && (e.Accept? || e.DeviceArrives? || e.VersionArrives?)
    ensures Step(d, e).conns == d.conns
  {
    StepOf(d, e);
    hide Step, Broadcast, Enabled;
  }

  lemma UndisturbedKey(d: State, d': State, k: nat)
    requires Undisturbed(d, d', k)
    ensures k in d'.conns
  {
  }

  /** Nor does anything a client sends or takes. */
  lemma {:induction false} EndedByReader(d: State, e: Event, k: nat, c: nat)
    requires Inv(d) && Owned(d, k, c) && Enabled(d, e) && k !in Step(d, e).conns
    requires e.CommandArrives? || e.ClientHangsUp? || e.ClientDrains?
    ensures e.c == c && (!e.ClientDrains? ==> d.clients[c].state == Connecting1)
  {
    ReadByDaemon(d, e, k, c);
    if e.c != c {
      ReaderApart(d, e, k, c);
    }
  }

  lemma {:induction false} ReaderApart(d: State, e: Event, k: nat, c: nat)
    requires Owned(d, k, c) && Enabled(d, e)
    requires (e.CommandArrives? || e.ClientHangsUp? || e.ClientDrains?) && e.c != c
    ensures k in Step(d, e).conns
  {
    assert e.c in d.clients;
    StepOf(d, e);
    hide Step, Handle, Close, Drain, Undisturbed, Owned, Enabled;
    match e {
      case CommandArrives(c', cmd, w) =>
        HandleApart(d, c', cmd, w, k, c);
        UndisturbedKey(d, Handle(d, c', cmd, w), k);
      case ClientHangsUp(c', w) =>
        CloseApart(d, c', w, k, c);
        UndisturbedKey(d, Close(d, c', w), k);
      case ClientDrains(c', n, w) =>
        DrainApart(d, c', n, w, k, c);
        UndisturbedKey(d, Drain(d, c', n, w), k);
    }
  }

  lemma FinaleOf(d: State, e: Event, k: nat, l: L.State)
    requires L.Inv(l)
    ensures e.SegmentArrives? ==> Finale(d, e, k, l) == L.Step(l, L.HostTakes(e.ok, e.now, Writes(e.w, k)))
    ensures e.ClientServed? ==>
              Finale(d, e, k, l) == L.Step(l, L.ClientReady(e.ev, e.wrote, e.got, e.ok, e.now, Writes(e.w, k)))
    ensures e.ClockTicks? ==> Finale(d, e, k, l) == L.Step(l, L.AckTimer(false, Time(e.clock, k), Writes(e.w, k)))
    ensures e.CommandArrives? || e.ClientHangsUp? || e.ClientDrains? || e.DeviceLeaves? ==>
              Finale(d, e, k, l) == L.Step(l, L.HostCloses(Writes(e.w, k)))
  {
    hide L.Step, L.Inv;
  }

  lemma {:induction false} DeviceFinale(d: State, e: Event, k: nat, c: nat, l: L.State)
    requires L.Inv(l) && Owned(d, k, c) && Mirrors(d, k, l) && Enabled(d, e) && k !in Step(d, e).conns
    requires e.DeviceLeaves? || e.ClockTicks?
    ensures Ended(Step(d, e), c, Finale(d, e, k, l))
  {
    hide L.Inv, L.Step, Mirrors, Step, Owned, Enabled, Ended, Finale, Detach, Timeouts;
    FinaleOf(d, e, k, l);
    StepOf(d, e);
    if e.DeviceLeaves? {
      DetachEnds(d, e.id, e.w, k, c, l);
    } else {
      ClockEnds(d, e.ct, e.oks, e.clock, e.w, k, c, l);
    }
  }

  /** Every event that ends a connection is enabled and is one of these. */
  lemma {:induction false} EndingEvents(d: State, e: Event, k: nat)
    requires k in d.conns && k !in Step(d, e).conns
    ensures Enabled(d, e)
    ensures !e.Accept? && !e.DeviceArrives? && !e.VersionArrives?
  {
    hide Step, Enabled;
    if !Enabled(d, e) {
      StepDisabled(d, e);
    } else if e.Accept? || e.DeviceArrives? || e.VersionArrives? {
      QuietEvents(d, e);
    }
  }

  /** Whatever event ends a connection with an honest device, its client has what the link has delivered. */
  lemma {:induction false} EventEnds(d: State, e: Event, k: nat, l: L.State)
    requires Inv(d) && L.Inv(l) && Mirrors(d, k, l) && Faithful(d, e, k, l) && k !in Step(d, e).conns
    ensures d.conns[k].client.Some? && Ended(Step(d, e), d.conns[k].client.value, Finale(d, e, k, l))
  {
    OwnerOf(d, k);
    var c := d.conns[k].client.value;
    assert k in d.conns;
    hide InvBut, L.Inv, L.Step, Mirrors, Faithful, Step, Owned, Enabled, Ended, Finale;
    EndingEvents(d, e, k);
    FinaleOf(d, e, k, l);
    if e.SegmentArrives? {
      SegmentFinale(d, e, k, c, l);
    } else if e.ClientServed? {
      ServedFinale(d, e, k, c, l);
    } else if e.DeviceLeaves? || e.ClockTicks? {
      DeviceFinale(d, e, k, c, l);
    } else {
      ReadFinale(d, e, k, c, l);
    }
  }

  /** A segment ends no connection but the one it is addressed to. */
  lemma {:induction false} EndedBySegment(d: State, e: Event, k: nat, c: nat)
    requires Inv(d) && Owned(d, k, c) && e.SegmentArrives? && Enabled(d, e) && k !in Step(d, e).conns
    ensures k in Matches(d, e.id, e.s)
    ensures Step(d, e) == SegmentTo(d, k, c, e.s, e.ok, e.now, e.w)
  {
    OwnedKey(d, k, c);
    hide InvBut, SegmentTo, Step, Matches, Owned, Enabled, Undisturbed, Addressed;
    if exists k', c' :: Addressed(d, e.id, e.s, k', c') {
      var k', c' := StepSegment(d, e);
      if k' == k {
        SameOwner(d, k, c, c');
      } else {
        SegmentApart(d, k', c', e.s, e.ok, e.now, e.w, k, c);
        UndisturbedKey(d, Step(d, e), k);
      }
    } else {
      StepUnowned(d, e);
    }
  }

  lemma {:induction false} SegmentFinale(d: State, e: Event, k: nat, c: nat, l: L.State)
    requires Inv(d) && L.Inv(l) && Owned(d, k, c) && Mirrors(d, k, l) && Faithful(d, e, k, l)
    requires e.SegmentArrives? && Enabled(d, e) && k !in Step(d, e).conns
    ensures Ended(Step(d, e), c, L.Step(l, L.HostTakes(e.ok, e.now, Writes(e.w, k))))
  {
    OwnedKey(d, k, c);
    hide InvBut, L.Inv, L.Step, Mirrors, SegmentTo, Step, Matches, Owned, Enabled, Ended;
    EndedBySegment(d, e, k, c);
    SegmentEnds(d, k, c, e.s, e.ok, e.now, e.w, l);
  }

  lemma {:induction false} ServedFinale(d: State, e: Event, k: nat, c: nat, l: L.State)
    requires Inv(d) && L.Inv(l) && Owned(d, k, c) && Mirrors(d, k, l)
    requires e.ClientServed? && Enabled(d, e) && k !in Step(d, e).conns
    ensures Ended(Step(d, e), c, L.Step(l, L.ClientReady(e.ev, e.wrote, e.got, e.ok, e.now, Writes(e.w, k))))
  {
    OwnedKey(d, k, c);
    hide InvBut, L.Inv, L.Step, Mirrors, Step, Owned, Enabled, Ended, TurnOf;
    EndedByServing(d, e, k, c);
    StepServed(d, e, k);
    TurnEnds(d, k, c, e.ev, e.wrote, e.got, e.ok, e.now, e.w, l);
  }

  lemma {:induction false} CommandFinale(d: State, e: Event, k: nat, c: nat, l: L.State)
    requires L.Inv(l) && Owned(d, k, c) && Mirrors(d, k, l) && Enabled(d, e)
    requires (e.CommandArrives? || e.ClientHangsUp?) && e.c == c && d.clients[c].state == Connecting1
    ensures Ended(Step(d, e), c, L.Step(l, L.HostCloses(Writes(e.w, k))))
  {
    hide L.Inv, L.Step, Mirrors, Step, Owned, Enabled, Ended, Handle, Close;
    StepOf(d, e);
    if e.CommandArrives? {
      HandleEnds(d, e.cmd, e.w, k, c, l);
    } else {
      HangUpEnds(d, e.w, k, c, l);
    }
  }

  lemma {:induction false} DrainFinale(d: State, e: Event, k: nat, c: nat, l: L.State)
    requires L.Inv(l) && Owned(d, k, c) && Mirrors(d, k, l) && Enabled(d, e) && k !in Step(d, e).conns
    requires e.ClientDrains? && e.c == c
    ensures Ended(Step(d, e), c, L.Step(l, L.HostCloses(Writes(e.w, k))))
  {
    OwnedKey(d, k, c);
    assert d.clients[c].state != Streaming;
    hide L.Inv, L.Step, Mirrors, Step, Owned, Enabled, Ended, Drain;
    StepOf(d, e);
    DrainEnds(d, e.n, e.w, k, c, l);
  }

  lemma {:induction false} ReadFinale(d: State, e: Event, k: nat, c: nat, l: L.State)
    requires Inv(d) && L.Inv(l) && Owned(d, k, c) && Mirrors(d, k, l) && Enabled(d, e) && k !in Step(d, e).conns
    requires e.CommandArrives? || e.ClientHangsUp? || e.ClientDrains?
    ensures Ended(Step(d, e), c, L.Step(l, L.HostCloses(Writes(e.w, k))))
  {
    OwnedKey(d, k, c);
    hide InvBut, L.Inv, L.Step, Mirrors, Step, Owned, Enabled, Ended;
    EndedByReader(d, e, k, c);
    if e.ClientDrains? {
      DrainFinale(d, e, k, c, l);
    } else {
      CommandFinale(d, e, k, c, l);
    }
  }

  lemma {:induction false} FinaleInv(d: State, e: Event, k: nat, l: L.State)
    requires L.Inv(l)
    ensures L.Inv(Finale(d, e, k, l)) && Finale(d, e, k, l).peer == l.peer
  {
    FinalePeer(d, e, k, l);
    hide L.Step;
    match e {
      case SegmentArrives(id, s, ok, now, w) => L.StepKeeps(l, L.HostTakes(ok, now, Writes(w, k)));
      case ClientServed(c, ev, wrote, got, ok, now, w) =>
        L.StepKeeps(l, L.ClientReady(ev, wrote, got, ok, now, Writes(w, k)));
      case ClockTicks(ct, oks, clock, w) => L.StepKeeps(l, L.AckTimer(false, Time(clock, k), Writes(w, k)));
      case DeviceLeaves(id, w) => L.StepKeeps(l, L.HostCloses(Writes(w, k)));
      case CommandArrives(c, cmd, w) => L.StepKeeps(l, L.HostCloses(Writes(w, k)));
      case ClientHangsUp(c, w) => L.StepKeeps(l, L.HostCloses(Writes(w, k)));
      case ClientDrains(c, n, w) => L.StepKeeps(l, L.HostCloses(Writes(w, k)));
      case _ =>
    }
  }

  /** What the host does is not the device's doing. */
  lemma FinalePeer(d: State, e: Event, k: nat, l: L.State)
    requires L.Inv(l)
    ensures Finale(d, e, k, l).peer == l.peer
  {
    hide SegmentIn, ClientTurn, FlushRoom;
  }

  /** A link that is over has delivered a prefix of what the device sent, and forwarded all the device has. */
  lemma LinkOver(l: L.State)
    requires L.Inv(l) && !l.live
    ensures l.delivered <= l.accepted <= l.peer.sent && l.peer.rcvd <= l.taken && !l.peer.rejected
  {
  }

  /**
    To the end: after any run of the whole daemon, when some event ends the connection of a client
    with an honest device, be it a reset, a failure, a hang-up or the departure of the device, the
    client has been given exactly what the link delivers with its teardown flush. That is a prefix of
    the accepted payload, which is a prefix of what the device sent; and the device has only bytes
    that were read from the client.
   */
  lemma {:induction false} ServedToTheEnd(d: State, c: nat, cmd: Command, w: World, d': State, k: nat, l: L.State,
                                          ts: seq<Tick>, e: Event)
    requires Reachable(d) && Launched(d, c, cmd, w, d', k, l) && Course(d', k, l, ts)
    requires var p := After(d', k, l, ts); Faithful(p.d, e, k, p.l) && k !in Step(p.d, e).conns
    ensures var p := After(d', k, l, ts);
            && k in p.d.conns && p.d.conns[k].client.Some?
            && var c, d1 := p.d.conns[k].client.value, Step(p.d, e);
              && Ended(d1, c, Finale(p.d, e, k, p.l))
              && Record(d1, c).delivered <= Record(d1, c).fromDevice <= p.l.peer.sent
              && p.l.peer.rcvd <= Record(d1, c).forwarded
  {
    ServedLink(d, c, cmd, w, d', k, l, ts);
    hide InvBut, Launched, Course, After, Step, L.Inv, L.Reachable, Faithful, Finale;
    var p := After(d', k, l, ts);
    EventEnds(p.d, e, k, p.l);
    FinaleInv(p.d, e, k, p.l);
    LinkOver(Finale(p.d, e, k, p.l));
  }
}
