/**
  What holds in every reachable state of the daemon, whatever the devices send.
 */
module DaemonTheorems {
  import opened Words
  import opened Transport
  import opened Daemon
  import opened DaemonInv
  import opened DaemonSteps
  import opened DaemonRuns

  ghost predicate Reachable(d: State) {
    exists render: Render, es: seq<Event> :: d == Run(Boot(render), es)
  }

  lemma ReachableInv(d: State)
    requires Reachable(d)
    ensures Inv(d)
  {
    var render: Render, es: seq<Event> :| d == Run(Boot(render), es);
    BootInv(render);
    RunKeeps(Boot(render), es);
  }

  lemma {:induction false} RunSnoc(d: State, es: seq<Event>, e: Event)
    ensures Run(d, es + [e]) == Step(Run(d, es), e)
    decreases |es|
  {
    hide Step;
    if es == [] {
      assert es + [e] == [e] && [e][1..] == [];
    } else {
      assert (es + [e])[1..] == es[1..] + [e];
      RunSnoc(Step(d, es[0]), es[1..], e);
    }
  }

  /** One more event. */
  lemma ReachableStep(d: State, e: Event)
    requires Reachable(d)
    ensures Reachable(Step(d, e))
  {
    hide Step, Run;
    var render: Render, es: seq<Event> :| d == Run(Boot(render), es);
    RunSnoc(Boot(render), es, e);
  }

  /** The record of a client, or the last one of a client that is gone. */
  ghost function Record(d: State, c: nat): Client
    requires c in d.clients || c in d.departed
  {
    if c in d.clients then d.clients[c] else d.departed[c]
  }

  /** `c` is the client of connection `k`, found the way `get_mux_connection` looks for it. */
  ghost predicate Owns(d: State, c: nat, k: nat) {
    c in d.clients && k in d.conns && d.conns[k].dev == d.clients[c].connectDevice && d.conns[k].client == Some(c)
  }

  /** Clients and connections pair up, and no connection rests in a transient state. */
  lemma Coupling(d: State)
    requires Reachable(d)
    ensures forall c :: c in d.clients ==>
              match d.clients[c].state
              case Commanding => forall k :: k in d.conns ==> d.conns[k].client != Some(c)
              case Listening => forall k :: k in d.conns ==> d.conns[k].client != Some(c)
              case Connecting1 => exists k :: Owns(d, c, k) && d.conns[k].tcp.state == Connecting
              case Connecting2 => exists k :: Owns(d, c, k) && d.conns[k].tcp.state == Connected
              case Streaming => exists k :: Owns(d, c, k) && d.conns[k].tcp.state == Connected
              case Gone => false
    ensures forall k :: k in d.conns ==>
              && d.conns[k].tcp.state in {Connecting, Connected}
              && d.conns[k].client.Some? && Owns(d, d.conns[k].client.value, k)
    ensures forall c, k, l ::
        k in d.conns && l in d.conns && d.conns[k].client == Some(c) && d.conns[l].client == Some(c) ==> k == l
  {
    ReachableInv(d);
    forall k | k in d.conns
      ensures d.conns[k].tcp.state in {Connecting, Connected}
      ensures d.conns[k].client.Some? && Owns(d, d.conns[k].client.value, k)
      ensures d.clients[d.conns[k].client.value].link == Some(k)
    {
      assert EntryOk(d, k) && Resting(d.conns[k].tcp);
    }
    forall c | c in d.clients
      ensures d.clients[c].state in {Commanding, Listening} ==> forall k :: k in d.conns ==>
          d.conns[k].client != Some(c)
      ensures d.clients[c].state == Connecting1 ==> exists k :: Owns(d, c, k) && d.conns[k].tcp.state == Connecting
      ensures d.clients[c].state in {Connecting2, Streaming} ==> exists k ::
          Owns(d, c, k) && d.conns[k].tcp.state == Connected
      ensures d.clients[c].state != Gone
    {
      CouplingOne(d, c);
    }
  }

  lemma CouplingOne(d: State, c: nat)
    requires Inv(d) && c in d.clients
    ensures d.clients[c].state in {Commanding, Listening} ==> forall k :: k in d.conns ==> d.conns[k].client != Some(c)
    ensures d.clients[c].state == Connecting1 ==> exists k :: Owns(d, c, k) && d.conns[k].tcp.state == Connecting
    ensures d.clients[c].state in {Connecting2, Streaming} ==> exists k ::
        Owns(d, c, k) && d.conns[k].tcp.state == Connected
    ensures d.clients[c].state != Gone
  {
    SeatFacts(d, c);
    assert SeatOk(d, c);
    var cl := d.clients[c];
    if cl.link.Some? {
      assert EntryOk(d, cl.link.value) && Resting(d.conns[cl.link.value].tcp);
      assert Owns(d, c, cl.link.value);
    } else {
      forall k | k in d.conns ensures d.conns[k].client != Some(c) {
        assert EntryOk(d, k);
      }
    }
  }

  /** The connections a client is bound to are on active devices: nothing points at a removed one. */
  lemma NothingDangles(d: State)
    requires Reachable(d)
    ensures forall c :: c in d.clients && d.clients[c].state in {Connecting1, Connecting2, Streaming} ==>
              d.clients[c].connectDevice in d.devices && d.devices[d.clients[c].connectDevice].state == Active
    ensures forall k :: k in d.conns ==>
        d.conns[k].dev in d.devices && d.conns[k].client.Some? && d.conns[k].client.value in d.clients
  {
    ReachableInv(d);
    forall c | c in d.clients && d.clients[c].state in {Connecting1, Connecting2, Streaming}
      ensures d.clients[c].connectDevice in d.devices && d.devices[d.clients[c].connectDevice].state == Active
    {
      CouplingOne(d, c);
      var k :| Owns(d, c, k);
      assert EntryOk(d, k);
    }
    forall k | k in d.conns
      ensures d.conns[k].dev in d.devices && d.conns[k].client.Some? && d.conns[k].client.value in d.clients
    {
      assert EntryOk(d, k);
    }
  }

  /** Source ports in use on a device are distinct and non-zero: first match is only match. */
  lemma UniqueMatch(d: State, id: nat, s: Segment, k: nat, l: nat)
    requires Reachable(d) && k in Matches(d, id, s) && l in d.conns && d.conns[l].dev == id
    ensures d.conns[l].tcp.sport == s.dport ==> l == k
    ensures d.conns[k].tcp.sport != 0
    ensures exists c :: Addressed(d, id, s, k, c)
  {
    ReachableInv(d);
    assert EntryOk(d, k);
    assert Addressed(d, id, s, k, d.conns[k].client.value);
  }

  /**
    A client's socket carries control messages and then device payload: nothing of the payload
    before the last byte of the grant, no message after it, and no byte the device did not send.
   */
  lemma HandOver(d: State, c: nat)
    requires Reachable(d) && (c in d.clients || c in d.departed)
    ensures var cl := if c in d.clients then d.clients[c] else d.departed[c];
            && (cl.sent <= Control(d.render, cl.queued) || cl.sent == Control(d.render, cl.queued) + cl.delivered)
            && (cl.delivered != [] ==>
                cl.sent == Control(d.render, cl.queued) + cl.delivered && LastGrants(cl.queued, cl.connectTag))
            && cl.delivered <= cl.fromDevice
  {
    ReachableInv(d);
    if c in d.clients {
      SeatFacts(d, c);
      HandOverSeat(d.render, d.clients[c], Linked(d.conns, d.clients[c]), SkyOf(d.devices, d.nextDevice));
    } else {
      assert Closed(d.render, d.departed[c]);
    }
  }

  lemma HandOverSeat(render: Render, cl: Client, tcp: Option<Conn>, sky: Sky)
    requires Core(render, cl, tcp, sky)
    ensures cl.sent <= Control(render, cl.queued) || cl.sent == Control(render, cl.queued) + cl.delivered
    ensures cl.delivered != [] ==>
        cl.sent == Control(render, cl.queued) + cl.delivered && LastGrants(cl.queued, cl.connectTag)
    ensures cl.delivered <= cl.fromDevice
  {
    if cl.state != Streaming {
      assert cl.sent <= cl.sent + cl.ob;
    }
  }

  /** While a client is served, what it got and what is buffered is what the device sent it. */
  lemma NothingLost(d: State, c: nat, k: nat)
    requires Reachable(d) && Owns(d, c, k) && d.clients[c].state in {Connecting2, Streaming}
    ensures d.clients[c].delivered + d.conns[k].tcp.ib == d.clients[c].fromDevice
    ensures |d.conns[k].tcp.ib| <= CONN_INBUF_SIZE
  {
    ReachableInv(d);
    SeatFacts(d, c);
    assert EntryOk(d, k) && Resting(d.conns[k].tcp);
    assert Linked(d.conns, d.clients[c]) == Some(d.conns[k].tcp);
  }

  /** Every Connect is answered exactly once, in order, with its own tag, unless the client goes first. */
  lemma AnsweredOnce(d: State, c: nat)
    requires Reachable(d) && (c in d.clients || c in d.departed)
    ensures c in d.clients ==>
              var cl := d.clients[c];
              cl.asked == Replies(cl.queued) + (if cl.state == Connecting1 then [cl.connectTag] else [])
    ensures c in d.departed ==>
              var cl := d.departed[c];
              cl.asked == Replies(cl.queued) || (cl.asked != [] && cl.asked[..|cl.asked| - 1] == Replies(cl.queued))
  {
    ReachableInv(d);
    if c in d.clients {
      SeatFacts(d, c);
    }
    if c in d.departed {
      assert Closed(d.render, d.departed[c]);
      var cl := d.departed[c];
      if |cl.asked| != |Replies(cl.queued)| {
        assert cl.asked[..|cl.asked| - 1] == Replies(cl.queued);
      }
    }
  }

  /** A listener's messages, replayed, give the visible devices; no device is announced twice. */
  lemma ListenerView(d: State, c: nat)
    requires Reachable(d) && c in d.clients
    ensures Replay(d.clients[c].queued).Some?
    ensures d.clients[c].state == Listening ==> Replay(d.clients[c].queued).value.live == Visible(d.devices)
    ensures forall i :: i in Replay(d.clients[c].queued).value.heard ==> i < d.nextDevice
  {
    ReachableInv(d);
    SeatFacts(d, c);
  }

  /** The mask asks for output iff device bytes are buffered, for input iff the window has room. */
  ghost predicate Wants(d: State, c: nat, k: nat, m: Mask) {
    Owns(d, c, k) && (m.wr <==> d.conns[k].tcp.ib != []) && (m.rd <==> d.conns[k].tcp.sendable > 0)
  }

  /** No lost wakeups: a client is polled for exactly what can be done for it. */
  lemma Wakeups(d: State, c: nat)
    requires Reachable(d) && c in d.clients
    ensures var cl := d.clients[c];
            && (cl.state == Streaming ==> exists k :: Wants(d, c, k, cl.events))
            && (cl.state == Connecting2 ==>
                  cl.ob != [] && cl.events == Mask(false, true) && exists k :: Wants(d, c, k, cl.devents))
            && (cl.state !in {Streaming, Connecting2} ==> cl.events.rd && (cl.events.wr <==> cl.ob != []))
            && (cl.ob != [] ==> cl.events.wr)
  {
    ReachableInv(d);
    SeatFacts(d, c);
    CouplingOne(d, c);
    var cl := d.clients[c];
    if cl.state in {Streaming, Connecting2} {
      var k :| Owns(d, c, k) && d.conns[k].tcp.state == Connected;
      assert EntryOk(d, k) && Resting(d.conns[k].tcp);
      assert Linked(d.conns, cl) == Some(d.conns[k].tcp);
      assert Wants(d, c, k, cl.devents);
    }
  }

  /** A reply to a connecting client is never refused: `client_notify_connect` finds it waiting. */
  lemma NotifyFindsWaiting(d: State, k: nat)
    requires Reachable(d) && k in d.conns && d.conns[k].tcp.state == Connecting
    ensures d.conns[k].client.Some? && d.conns[k].client.value in d.clients
    ensures d.clients[d.conns[k].client.value].state == Connecting1
  {
    ReachableInv(d);
    assert EntryOk(d, k);
    var c := d.conns[k].client.value;
    SeatFacts(d, c);
    assert Linked(d.conns, d.clients[c]) == Some(d.conns[k].tcp);
  }

  /** What `device_check_timeouts` leaves of a connection that survives it. */
  lemma Survivor(d: State, ct: nat, oks: set<nat>, clock: Clock, w: World, k: nat)
    requires k in d.conns && d.conns[k].tcp.txWin < U16 * 256 && k in Timeouts(d, ct, oks, clock, w).conns
    ensures var e' := Timeouts(d, ct, oks, clock, w).conns[k];
            if k in Due(d, ct) then e' == d.conns[k].(tcp := AckTurn(d.conns[k].tcp, true, Time(clock, k)).c)
                else e' == d.conns[k]
    ensures Timeouts(d, ct, oks, clock, w).devices == d.devices
  {
    hide Aftermath, LoggedAll, Resets, AckTurn, Hit, Due;
  }

  lemma TimeoutKeys(d: State, ct: nat, oks: set<nat>, clock: Clock, w: World)
    ensures Timeouts(d, ct, oks, clock, w).conns.Keys == d.conns.Keys - (Due(d, ct) - oks)
  {
    hide Aftermath, LoggedAll, Resets, AckTurn, Hit, Due;
  }

  /** After `device_check_timeouts` no surviving connection is overdue at the time it sampled. */
  lemma {:induction false} NoneOverdue(d: State, ct: nat, oks: set<nat>, clock: Clock, w: World)
    requires Reachable(d)
    ensures Due(Timeouts(d, ct, oks, clock, w), ct) == {}
    ensures forall k :: k in d.conns && (k !in Due(d, ct) || k in oks) ==> k in Timeouts(d, ct, oks, clock, w).conns
  {
    ReachableInv(d);
    TimeoutKeys(d, ct, oks, clock, w);
    hide Timeouts, InvBut;
    var d' := Timeouts(d, ct, oks, clock, w);
    forall k | k in d'.conns ensures k !in Due(d', ct) {
      EntryWindow(d, k);
      Survivor(d, ct, oks, clock, w, k);
    }
  }
}
