/**
  The closed form of teardowns, piece by piece: what one call in the mutual recursion does, why
  the recursion ends, and how teardowns of several connections compose.
 */
module Teardown {
  import opened Words
  import opened Transport
  import opened Daemon
  import opened DaemonInv
  import opened DaemonSteps
  import Ports

  /** Client `c` and connection `k` have each other and nobody else. */
  ghost predicate Paired(d: State, c: nat, k: nat) {
    && c in d.clients && k in d.conns
    && d.clients[c].link == Some(k) && d.conns[k].client == Some(c)
    && d.conns[k].dev == d.clients[c].connectDevice
    && d.conns[k].tcp.txWin < U16 * 256
    && (forall x :: x in d.clients && d.clients[x].link == Some(k) ==> x == c)
    && (forall l :: l in d.conns && d.conns[l].client == Some(c) ==> l == k)
  }

  ghost predicate DeviceDead(d: State, k: nat)
    requires k in d.conns
  {
    d.conns[k].dev in d.devices && d.devices[d.conns[k].dev].state == Removed
  }

  /** What `connection_teardown` relies on. */
  ghost predicate TearReady(d: State, k: nat) {
    && k in d.conns && d.conns[k].tcp.txWin < U16 * 256
    && (d.conns[k].client.None? || d.conns[k].tcp.state == Dead ||
        var c := d.conns[k].client.value;
        && Paired(d, c, k)
        && (if Unborn(d.conns[k].tcp) then d.clients[c].state == Connecting1
            else d.clients[c].state in {Connecting2, Streaming}))
  }

  /** What a call of `connection_teardown` does, in any of the situations it is called in. */
  ghost function TornDown(d: State, k: nat, w: World): State
    requires TearReady(d, k)
  {
    if d.conns[k].tcp.state == Dead then d
    else if d.conns[k].client.None? then
      d.(conns := d.conns - {k}, wire := LoggedAll(d.wire, d.conns, Resets(d.conns, {k}, w, DeviceDead(d, k)), RST))
    else TearDown(d, {k}, w, DeviceDead(d, k))
  }

  /** What `client_close` relies on. */
  ghost predicate CloseReady(d: State, c: nat) {
    c in d.clients && d.clients[c].state in {Connecting1, Connecting2} ==>
      && d.clients[c].link.Some? && Paired(d, c, d.clients[c].link.value)
      && (d.conns[d.clients[c].link.value].tcp.state != Dead ==> !DeviceDead(d, d.clients[c].link.value))
  }

  /** What a call of `client_close` does: inside a teardown the connection is only unlinked. */
  ghost function ClosedBy(d: State, c: nat, w: World): State
    requires CloseReady(d, c)
  {
    if c in d.clients && d.clients[c].state in {Connecting1, Connecting2}
        && d.conns[d.clients[c].link.value].tcp.state == Dead then
      var k := d.clients[c].link.value;
      d.(clients := d.clients - {c}, departed := d.departed[c := d.clients[c].(state := Gone, link := None)],
         conns := d.conns[k := d.conns[k].(client := None)])
    else Close(d, c, w)
  }

  ghost function Undead(conns: map<nat, Entry>): set<nat> {
    set k | k in conns && conns[k].tcp.state != Dead
  }

  ghost function MidConnect(clients: map<nat, Client>): set<nat> {
    set c | c in clients && clients[c].state in {Connecting1, Connecting2}
  }

  /** Work the mutual recursion still has to do: connections not marked dead, clients not marked gone. */
  ghost function Pending(d: State): nat {
    |Undead(d.conns)| + |MidConnect(d.clients)|
  }

  lemma Fewer<T>(a: set<T>, b: set<T>, x: T)
    requires a <= b && x in b && x !in a
    ensures |a| < |b|
  {
    Ports.SubsetCount(a, b - {x});
  }

  /** Marking a connection dead is progress. */
  lemma MarkedDead(d: State, d': State, k: nat, tcp: Conn)
    requires k in d.conns && d.conns[k].tcp.state != Dead && tcp.state == Dead
    requires d'.conns == d.conns[k := d.conns[k].(tcp := tcp)]
    requires MidConnect(d'.clients) <= MidConnect(d.clients)
    ensures Pending(d') < Pending(d)
  {
    Fewer(Undead(d'.conns), Undead(d.conns), k);
    Ports.SubsetCount(MidConnect(d'.clients), MidConnect(d.clients));
  }

  /** So is marking a client gone. */
  lemma MarkedGone(d: State, d': State, c: nat, cl: Client)
    requires c in d.clients && d.clients[c].state in {Connecting1, Connecting2} && cl.state == Gone
    requires d'.clients == d.clients[c := cl] && d'.conns == d.conns
    ensures Pending(d') < Pending(d)
  {
    Fewer(MidConnect(d'.clients), MidConnect(d.clients), c);
  }

  lemma ResetLogged(d: State, k: nat, w: World, dead: bool)
    requires k in d.conns && d.conns[k].tcp.txWin < U16 * 256
    ensures LoggedAll(d.wire, d.conns, Resets(d.conns, {k}, w, dead), RST) ==
              if SendsReset(d.conns[k].tcp, dead) && k in w.resets
                  then Logged(d.wire, k, [Outgoing(d.conns[k].tcp, {RST}, [])]) else d.wire
  {
  }

  /** Resets depend on the connection and the device only. */
  lemma SameResets(d: State, d': State, k: nat, w: World)
    requires k in d.conns && k in d'.conns && d'.conns[k].tcp == d.conns[k].tcp && d'.wire == d.wire
    requires d.conns[k].tcp.txWin < U16 * 256
    ensures forall dead ::
        LoggedAll(d'.wire, d'.conns, Resets(d'.conns, {k}, w, dead), RST) ==
        LoggedAll(d.wire, d.conns, Resets(d.conns, {k}, w, dead), RST)
  {
    forall dead ensures LoggedAll(d'.wire, d'.conns, Resets(d'.conns, {k}, w, dead), RST) ==
        LoggedAll(d.wire, d.conns, Resets(d.conns, {k}, w, dead), RST) {
      ResetLogged(d, k, w, dead);
      ResetLogged(d', k, w, dead);
    }
  }

  lemma NoResets(d: State, w: World)
    ensures LoggedAll(d.wire, d.conns, Resets(d.conns, {}, w, false), RST) == d.wire
    ensures d.conns - {} == d.conns
  {
  }

  /** The closed form of a teardown that concerns one client. */
  lemma {:induction false} TearOne(d: State, c: nat, k: nat, w: World, dead: bool)
    requires Paired(d, c, k)
    ensures TearDown(d, {k}, w, dead) ==
              d.(conns := d.conns - {k}, wire := LoggedAll(d.wire, d.conns, Resets(d.conns, {k}, w, dead), RST),
                 clients := if Unborn(d.conns[k].tcp) then d.clients[c :=
                     Notified(d.render, d.clients[c], RESULT_CONNREFUSED)]
                            else d.clients - {c},
                 departed := if Unborn(d.conns[k].tcp) then d.departed
                             else d.departed[c := FlushedOut(d.clients[c], d.conns[k].tcp, Writes(w, k))])
  {
    TearOneConn(d, k, w, dead);
    TearOneClients(d, c, k, w, dead);
    TearOneDeparted(d, c, k, w, dead);
    hide Notified, FlushedOut, LoggedAll, Resets, Unborn, Hit;
  }

  lemma TearOneConn(d: State, k: nat, w: World, dead: bool)
    ensures var d' := TearDown(d, {k}, w, dead);
            && d'.conns == d.conns - {k} && d'.wire == LoggedAll(d.wire, d.conns, Resets(d.conns, {k}, w, dead), RST)
            && d' == d.(conns := d'.conns, wire := d'.wire, clients := d'.clients, departed := d'.departed)
  {
    hide Notified, FlushedOut, LoggedAll, Resets, Unborn, Hit;
  }

  lemma TearOneClients(d: State, c: nat, k: nat, w: World, dead: bool)
    requires Paired(d, c, k)
    ensures TearDown(d, {k}, w, dead).clients ==
            if Unborn(d.conns[k].tcp) then d.clients[c := Notified(d.render, d.clients[c], RESULT_CONNREFUSED)]
            else d.clients - {c}
  {
    hide Notified, FlushedOut, LoggedAll, Resets;
    assert forall x :: x in d.clients ==> (Hit(d.clients[x], d.conns, {k}) <==> x == c);
  }

  lemma TearOneDeparted(d: State, c: nat, k: nat, w: World, dead: bool)
    requires Paired(d, c, k)
    ensures TearDown(d, {k}, w, dead).departed ==
            if Unborn(d.conns[k].tcp) then d.departed
            else d.departed[c := FlushedOut(d.clients[c], d.conns[k].tcp, Writes(w, k))]
  {
    hide Notified, FlushedOut, LoggedAll, Resets;
    assert forall x :: x in d.clients ==> (Hit(d.clients[x], d.conns, {k}) <==> x == c);
  }

  /** What the flush loop does to the record of the client. */
  lemma FlushRecord(cl: Client, tcp: Conn, ws: seq<Write>)
    ensures var n := Flushed(tcp, cl.state == Streaming, ws);
            FlushedOut(cl, tcp, ws) ==
              cl.(sent := cl.sent + tcp.ib[..n], delivered := cl.delivered + tcp.ib[..n]).(state := Gone, link := None)
  {
  }

  /** Closing a client whose connection is already marked dead, or that is being served. */
  lemma CloseDetached(d: State, c: nat, w: World)
    requires CloseReady(d, c) && c in d.clients
    requires d.clients[c].state in {Connecting1, Connecting2} ==> d.conns[d.clients[c].link.value].tcp.state == Dead
    ensures var d' := ClosedBy(d, c, w);
            && d'.clients == d.clients - {c} && d'.departed ==
                d.departed[c := d.clients[c].(state := Gone, link := None)]
            && d'.wire == d.wire && d' == d.(clients := d'.clients, departed := d'.departed, conns := d'.conns)
            && (forall k :: k in d.conns && d.conns[k].tcp.state != Dead ==> k in d'.conns && d'.conns[k] == d.conns[k])
            && d'.conns.Keys == d.conns.Keys
            && (forall k :: k in d.conns && d.conns[k].client != Some(c) ==> d'.conns[k] == d.conns[k])
  {
    NoResets(d, w);
  }

  // ---------------------------------------------------------------- at rest

  /** Between steps every linked client is paired with its connection. */
  lemma {:induction false} RestPaired(d: State, c: nat)
    requires Inv(d) && c in d.clients && d.clients[c].link.Some?
    ensures Paired(d, c, d.clients[c].link.value)
    ensures !DeviceDead(d, d.clients[c].link.value)
    ensures d.conns[d.clients[c].link.value].tcp.state in {Connecting, Connected}
  {
    assert SeatOk(d, c);
    assert EntryOk(d, d.clients[c].link.value);
    RestingState(d.conns[d.clients[c].link.value].tcp);
    forall x | x in d.clients && d.clients[x].link == d.clients[c].link ensures x == c {
      assert SeatOk(d, x);
    }
    forall l | l in d.conns && d.conns[l].client == Some(c) ensures l == d.clients[c].link.value {
      assert EntryOk(d, l);
    }
  }

  lemma {:induction false} RestCloseReady(d: State, c: nat)
    requires Inv(d)
    ensures CloseReady(d, c)
  {
    if c in d.clients && d.clients[c].state in {Connecting1, Connecting2} {
      SeatFacts(d, c);
      assert d.clients[c].link.Some?;
      RestPaired(d, c);
    }
  }

  lemma CoupledStates(render: Render, cl: Client, tcp: Conn, sky: Sky)
    requires Core(render, cl, Some(tcp), sky)
    ensures if Unborn(tcp) then cl.state == Connecting1 else cl.state in {Connecting2, Streaming}
  {
  }

  /** A connection that is about to go, with its client still in step. */
  lemma {:induction false} RestTearReady(d: State, ks: set<nat>, k: nat)
    requires InvBut(d, ks) && k in d.conns && k in ks && d.conns[k].tcp.state != Dead
    ensures TearReady(d, k) && d.conns[k].client.Some?
  {
    hide Core, Polled, Resting, DevicesOk, PortsOk, SkyOf, Archived, AllResting;
    assert EntryOk(d, k);
    var c := d.conns[k].client.value;
    assert SeatOk(d, c);
    CoupledStates(d.render, d.clients[c], d.conns[k].tcp, SkyOf(d.devices, d.nextDevice));
    forall x | x in d.clients && d.clients[x].link == Some(k) ensures x == c {
      assert SeatOk(d, x);
    }
    forall l | l in d.conns && d.conns[l].client == Some(c) ensures l == k {
      assert EntryOk(d, l);
    }
  }

  // ---------------------------------------------------------------- composition

  lemma TearDownShape(d: State, ks: set<nat>, w: World, dead: bool)
    ensures var d' := TearDown(d, ks, w, dead);
            && d'.conns == d.conns - ks && d'.wire == LoggedAll(d.wire, d.conns, Resets(d.conns, ks, w, dead), RST)
            && d' == d.(conns := d'.conns, wire := d'.wire, clients := d'.clients, departed := d'.departed)
            && d'.clients.Keys <= d.clients.Keys && d'.departed.Keys <= d.departed.Keys + d.clients.Keys
            && (forall c :: c in d.departed && c !in d.clients ==> c in d'.departed && d'.departed[c] == d.departed[c])
  {
    hide LoggedAll, Resets, Aftermath, Hit;
  }

  lemma ResetsCompose(d: State, d': State, ks: set<nat>, k: nat, w: World, dead: bool)
    requires k !in ks && d'.conns == d.conns - ks
    requires d'.wire == LoggedAll(d.wire, d.conns, Resets(d.conns, ks, w, dead), RST)
    ensures LoggedAll(d'.wire, d'.conns, Resets(d'.conns, {k}, w, dead), RST) ==
        LoggedAll(d.wire, d.conns, Resets(d.conns, ks + {k}, w, dead), RST)
  {
    var more, before := Resets(d'.conns, {k}, w, dead), Resets(d.conns, ks, w, dead);
    assert Resets(d.conns, ks + {k}, w, dead) == before + more;
    assert more <= {k} && k !in before;
    LoggedCompose(d, d', before, more);
  }

  lemma LoggedCompose(d: State, d': State, before: set<nat>, more: set<nat>)
    requires before !! more && d'.wire == LoggedAll(d.wire, d.conns, before, RST)
    requires forall k :: k in more ==> (k in d.conns <==> k in d'.conns) && (k in d.conns ==> d'.conns[k] == d.conns[k])
    ensures LoggedAll(d'.wire, d'.conns, more, RST) == LoggedAll(d.wire, d.conns, before + more, RST)
  {
  }

  /** What a teardown leaves of a client that it does not hit. */
  lemma Untouched(d: State, ks: set<nat>, w: World, dead: bool, c: nat)
    requires c in d.clients && !Hit(d.clients[c], d.conns, ks)
    ensures c in TearDown(d, ks, w, dead).clients && TearDown(d, ks, w, dead).clients[c] == d.clients[c]
    ensures c in d.departed ==>
        c in TearDown(d, ks, w, dead).departed && TearDown(d, ks, w, dead).departed[c] == d.departed[c]
  {
    hide LoggedAll, Resets, Aftermath;
  }

  lemma Touched(d: State, ks: set<nat>, w: World, dead: bool, c: nat)
    requires c in d.clients && Hit(d.clients[c], d.conns, ks)
    ensures var d' := TearDown(d, ks, w, dead);
            if Unborn(d.conns[d.clients[c].link.value].tcp) then c in d'.clients
                && d'.clients[c] == Aftermath(d.render, d.clients[c], d.conns, w)
            else c !in d'.clients && c in d'.departed && d'.departed[c] == Aftermath(d.render, d.clients[c], d.conns, w)
  {
    hide LoggedAll, Resets, Aftermath;
  }

  lemma AftermathLocal(d: State, d': State, c: nat, w: World)
    requires c in d.clients && c in d'.clients && Hit(d.clients[c], d.conns, d.conns.Keys)
    requires Hit(d'.clients[c], d'.conns, d'.conns.Keys)
    requires d'.clients[c] == d.clients[c] && d'.render == d.render
    requires d'.conns[d.clients[c].link.value] == d.conns[d.clients[c].link.value]
    ensures Aftermath(d'.render, d'.clients[c], d'.conns, w) == Aftermath(d.render, d.clients[c], d.conns, w)
  {
  }

  /** Tearing down one more connection, as each client sees it. */
  lemma {:induction false} ComposeClient(d: State, ks: set<nat>, k: nat, w: World, dead: bool, c: nat)
    requires k !in ks && c in d.clients && c !in d.departed
    ensures var d1, d2 := TearDown(TearDown(d, ks, w, dead), {k}, w, dead), TearDown(d, ks + {k}, w, dead);
            && (c in d1.clients <==> c in d2.clients)
            && (c in d1.clients ==> d1.clients[c] == d2.clients[c])
            && (c !in d1.clients ==> c in d1.departed && c in d2.departed && d1.departed[c] == d2.departed[c])
  {
    hide TearDown, Aftermath, LoggedAll, Resets;
    var d' := TearDown(d, ks, w, dead);
    TearDownShape(d, ks, w, dead);
    if Hit(d.clients[c], d.conns, ks) {
      Touched(d, ks, w, dead, c);
      Touched(d, ks + {k}, w, dead, c);
      if c in d'.clients {
        Untouched(d', {k}, w, dead, c);
      } else {
        TearDownShape(d', {k}, w, dead);
      }
    } else {
      Untouched(d, ks, w, dead, c);
      if Hit(d.clients[c], d.conns, {k}) {
        Touched(d', {k}, w, dead, c);
        Touched(d, ks + {k}, w, dead, c);
        AftermathLocal(d, d', c, w);
      } else {
        Untouched(d', {k}, w, dead, c);
        Untouched(d, ks + {k}, w, dead, c);
      }
    }
  }

  /** A teardown adds nobody but its own clients to the archive. */
  lemma DepartedWhence(d: State, ks: set<nat>, w: World, dead: bool, c: nat)
    requires c in TearDown(d, ks, w, dead).departed && c in d.clients && c !in d.departed
    ensures c !in TearDown(d, ks, w, dead).clients
  {
    hide LoggedAll, Resets, Aftermath, Hit;
  }

  lemma {:induction false} ComposeDeparted(d: State, ks: set<nat>, k: nat, w: World, dead: bool, c: nat)
    requires k !in ks && c in d.clients && c !in d.departed
    ensures var d1, d2 := TearDown(TearDown(d, ks, w, dead), {k}, w, dead), TearDown(d, ks + {k}, w, dead);
            && (c in d1.departed <==> c in d2.departed)
            && (c in d1.departed ==> d1.departed[c] == d2.departed[c])
  {
    hide TearDown, Aftermath, LoggedAll, Resets, Hit;
    var d' := TearDown(d, ks, w, dead);
    var d1, d2 := TearDown(d', {k}, w, dead), TearDown(d, ks + {k}, w, dead);
    TearDownShape(d, ks, w, dead);
    TearDownShape(d', {k}, w, dead);
    ComposeClient(d, ks, k, w, dead, c);
    if c in d2.departed { DepartedWhence(d, ks + {k}, w, dead, c); }
    if c in d'.departed {
      DepartedWhence(d, ks, w, dead, c);
    } else if c in d1.departed {
      DepartedWhence(d', {k}, w, dead, c);
    }
  }

  lemma SameMap<V>(a: map<nat, V>, b: map<nat, V>)
    requires forall c :: (c in a <==> c in b) && (c in a ==> a[c] == b[c])
    ensures a == b
  {
  }

  lemma {:induction false} ComposeClients(d: State, ks: set<nat>, k: nat, w: World, dead: bool)
    requires k !in ks && d.clients.Keys !! d.departed.Keys
    ensures TearDown(TearDown(d, ks, w, dead), {k}, w, dead).clients == TearDown(d, ks + {k}, w, dead).clients
    ensures TearDown(TearDown(d, ks, w, dead), {k}, w, dead).departed == TearDown(d, ks + {k}, w, dead).departed
  {
    hide TearDown, Aftermath, LoggedAll, Resets, Hit;
    var d' := TearDown(d, ks, w, dead);
    var d1, d2 := TearDown(d', {k}, w, dead), TearDown(d, ks + {k}, w, dead);
    TearDownShape(d, ks, w, dead);
    TearDownShape(d', {k}, w, dead);
    TearDownShape(d, ks + {k}, w, dead);
    forall c
      ensures (c in d1.clients <==> c in d2.clients) && (c in d1.clients ==> d1.clients[c] == d2.clients[c])
      ensures (c in d1.departed <==> c in d2.departed) && (c in d1.departed ==> d1.departed[c] == d2.departed[c])
    {
      if c in d.clients {
        ComposeClient(d, ks, k, w, dead, c);
        ComposeDeparted(d, ks, k, w, dead, c);
      }
    }
    SameMap(d1.clients, d2.clients);
    SameMap(d1.departed, d2.departed);
  }

  /** Teardowns compose: one after the other is both at once. */
  lemma {:induction false} TearDownCompose(d: State, ks: set<nat>, k: nat, w: World, dead: bool)
    requires k !in ks && d.clients.Keys !! d.departed.Keys
    ensures TearDown(TearDown(d, ks, w, dead), {k}, w, dead) == TearDown(d, ks + {k}, w, dead)
  {
    hide TearDown, Aftermath, LoggedAll, Resets, Hit;
    var d' := TearDown(d, ks, w, dead);
    TearDownShape(d, ks, w, dead);
    TearDownShape(d', {k}, w, dead);
    TearDownShape(d, ks + {k}, w, dead);
    ResetsCompose(d, d', ks, k, w, dead);
    ComposeClients(d, ks, k, w, dead);
    assert d.conns - ks - {k} == d.conns - (ks + {k});
  }

  // ---------------------------------------------------------------- teardowns and other changes

  /** Teardowns do not look at devices, except for the resets. */
  lemma TearDownDevices(d: State, ks: set<nat>, w: World, dead: bool, devices: map<nat, Device>)
    ensures TearDown(d.(devices := devices), ks, w, dead) == TearDown(d, ks, w, dead).(devices := devices)
  {
  }

  /** Logging for one connection and for others may happen in either order. */
  lemma LoggedApart(wire: map<nat, seq<Segment>>, conns: map<nat, Entry>, conns': map<nat, Entry>, ks: set<nat>,
                    flag: Flag, k: nat, out: seq<Segment>)
    requires k !in ks && forall x :: x in ks ==> x in conns && x in conns' && conns[x] == conns'[x]
    ensures Logged(LoggedAll(wire, conns, ks, flag), k, out) == LoggedAll(Logged(wire, k, out), conns', ks, flag)
  {
    hide Outgoing;
    var a, b := Logged(LoggedAll(wire, conns, ks, flag), k, out), LoggedAll(Logged(wire, k, out), conns', ks, flag);
    forall x ensures (x in a <==> x in b) && (x in a ==> a[x] == b[x]) {
    }
    SameMap(a, b);
  }

  lemma PutTearWire(d: State, ks: set<nat>, k: nat, tcp: Conn, c: nat, cl: Client, out: seq<Segment>,
                    w: World, dead: bool)
    requires k in d.conns && k !in ks
    ensures var d1 := Put(d, k, tcp, c, cl, out);
            Logged(LoggedAll(d.wire, d.conns, Resets(d.conns, ks, w, dead), RST), k, out) ==
            LoggedAll(d1.wire, d1.conns, Resets(d1.conns, ks, w, dead), RST)
  {
    hide LoggedAll, Logged;
    var d1 := Put(d, k, tcp, c, cl, out);
    assert Resets(d1.conns, ks, w, dead) == Resets(d.conns, ks, w, dead);
    LoggedApart(d.wire, d.conns, d1.conns, Resets(d.conns, ks, w, dead), RST, k, out);
  }

  lemma PutTearClient(d: State, ks: set<nat>, k: nat, tcp: Conn, c: nat, cl: Client, out: seq<Segment>, w: World,
                      dead: bool, x: nat)
    requires k in d.conns && k !in ks && c in d.clients && d.clients[c].link == Some(k) && cl.link == Some(k)
    requires x in d.clients
    ensures var d1, d2 := Put(TearDown(d, ks, w, dead), k, tcp, c, cl, out),
        TearDown(Put(d, k, tcp, c, cl, out), ks, w, dead);
            && (x in d1.clients <==> x in d2.clients) && (x in d1.clients ==> d1.clients[x] == d2.clients[x])
            && (x !in d1.clients ==> x in d1.departed && x in d2.departed && d1.departed[x] == d2.departed[x])
  {
    hide TearDown, Aftermath, LoggedAll, Resets, Logged;
    var d' := Put(d, k, tcp, c, cl, out);
    if x == c {
      Untouched(d, ks, w, dead, c);
      Untouched(d', ks, w, dead, c);
    } else if Hit(d.clients[x], d.conns, ks) {
      Touched(d, ks, w, dead, x);
      Touched(d', ks, w, dead, x);
      AftermathLocal(d, d', x, w);
    } else {
      Untouched(d, ks, w, dead, x);
      Untouched(d', ks, w, dead, x);
    }
  }

  lemma PutTearDeparted(d: State, ks: set<nat>, k: nat, tcp: Conn, c: nat, cl: Client, out: seq<Segment>, w: World,
                        dead: bool, x: nat)
    requires k in d.conns && k !in ks && c in d.clients && d.clients[c].link == Some(k) && cl.link == Some(k)
    requires x in d.clients && x !in d.departed
    ensures var d1, d2 := TearDown(d, ks, w, dead), TearDown(Put(d, k, tcp, c, cl, out), ks, w, dead);
            (x in d1.departed <==> x in d2.departed) && (x in d1.departed ==> d1.departed[x] == d2.departed[x])
  {
    hide TearDown, LoggedAll, Resets, Logged;
    PutTearClient(d, ks, k, tcp, c, cl, out, w, dead, x);
    var d' := Put(d, k, tcp, c, cl, out);
    if x in TearDown(d, ks, w, dead).departed { DepartedWhence(d, ks, w, dead, x); }
    if x in TearDown(d', ks, w, dead).departed { DepartedWhence(d', ks, w, dead, x); }
    if x == c {
      Untouched(d, ks, w, dead, c);
    }
  }

  /** A change to one connection and a teardown of others may happen in either order. */
  lemma {:induction false} PutTearCommute(d: State, ks: set<nat>, k: nat, tcp: Conn, c: nat, cl: Client,
                                          out: seq<Segment>, w: World, dead: bool)
    requires k in d.conns && k !in ks && c in d.clients && d.clients[c].link == Some(k) && cl.link == Some(k)
    requires d.clients.Keys !! d.departed.Keys
    ensures k in TearDown(d, ks, w, dead).conns && c in TearDown(d, ks, w, dead).clients
    ensures TearDown(d, ks, w, dead).conns[k] == d.conns[k] && TearDown(d, ks, w, dead).clients[c] == d.clients[c]
    ensures Put(TearDown(d, ks, w, dead), k, tcp, c, cl, out) == TearDown(Put(d, k, tcp, c, cl, out), ks, w, dead)
  {
    hide TearDown, Aftermath, LoggedAll, Resets, Logged;
    TearDownShape(d, ks, w, dead);
    TearDownShape(Put(d, k, tcp, c, cl, out), ks, w, dead);
    Untouched(d, ks, w, dead, c);
    var d1, d2 := Put(TearDown(d, ks, w, dead), k, tcp, c, cl, out), TearDown(Put(d, k, tcp, c, cl, out), ks, w, dead);
    PutTearWire(d, ks, k, tcp, c, cl, out, w, dead);
    forall x
      ensures (x in d1.clients <==> x in d2.clients) && (x in d1.clients ==> d1.clients[x] == d2.clients[x])
      ensures (x in d1.departed <==> x in d2.departed) && (x in d1.departed ==> d1.departed[x] == d2.departed[x])
    {
      if x in d.clients {
        PutTearClient(d, ks, k, tcp, c, cl, out, w, dead, x);
        PutTearDeparted(d, ks, k, tcp, c, cl, out, w, dead, x);
      }
    }
    SameMap(d1.clients, d2.clients);
    SameMap(d1.departed, d2.departed);
    assert d1.conns == d2.conns;
  }

  lemma AckWire(d: State, ks: set<nat>, k: nat)
    requires k in d.conns && d.conns[k].tcp.txWin < U16 * 256 && k !in ks
    ensures LoggedAll(d.wire, d.conns, (ks + {k}) * d.conns.Keys, ACK) ==
              Logged(LoggedAll(d.wire, d.conns, ks * d.conns.Keys, ACK), k, [Outgoing(d.conns[k].tcp, {ACK}, [])])
  {
    assert (ks + {k}) * d.conns.Keys == ks * d.conns.Keys + {k};
  }

  lemma AckOneConn(conns: map<nat, Entry>, ks: set<nat>, k: nat, clock: Clock)
    requires k in conns && conns[k].tcp.txWin < U16 * 256 && k !in ks
    ensures var tcp := AckTurn(conns[k].tcp, true, Time(clock, k)).c;
            Acked(conns, ks + {k}, clock) == Acked(conns, ks, clock)[k := conns[k].(tcp := tcp)]
    ensures Acked(conns, ks, clock)[k] == conns[k]
  {
    hide AckTurn;
  }

  lemma AckOneClient(cl: Client, conns: map<nat, Entry>, ks: set<nat>, k: nat, clock: Clock)
    requires k in conns && conns[k].tcp.txWin < U16 * 256 && k !in ks
    ensures AckedClient(cl, conns, ks + {k}, clock) ==
            if cl.link == Some(k) then SetEvents(cl, AckTurn(conns[k].tcp, true, Time(clock, k)).c.events)
            else AckedClient(cl, conns, ks, clock)
    ensures cl.link == Some(k) ==> AckedClient(cl, conns, ks, clock) == cl
  {
    hide AckTurn, SetEvents;
  }

  /** One more acknowledgement. */
  lemma {:induction false} AckOneMore(d: State, ks: set<nat>, k: nat, c: nat, clock: Clock)
    requires Paired(d, c, k) && k !in ks
    ensures k in AckAll(d, ks, clock).conns && AckAll(d, ks, clock).conns[k] == d.conns[k]
    ensures c in AckAll(d, ks, clock).clients && AckAll(d, ks, clock).clients[c] == d.clients[c]
    ensures var r := AckTurn(d.conns[k].tcp, true, Time(clock, k));
            AckAll(d, ks + {k}, clock) == Put(AckAll(d, ks, clock), k, r.c, c, SetEvents(d.clients[c], r.c.events),
                r.out)
  {
    var r := AckTurn(d.conns[k].tcp, true, Time(clock, k));
    var d0, d1 := AckAll(d, ks, clock), AckAll(d, ks + {k}, clock);
    var d2 := Put(d0, k, r.c, c, SetEvents(d.clients[c], r.c.events), r.out);
    AckWire(d, ks, k);
    AckOneConn(d.conns, ks, k, clock);
    AckClients(d, ks, k, c, clock);
    hide AckTurn, SetEvents, LoggedAll, Acked, AckedClient;
  }

  lemma {:induction false} AckClients(d: State, ks: set<nat>, k: nat, c: nat, clock: Clock)
    requires Paired(d, c, k) && k !in ks
    ensures c in AckAll(d, ks, clock).clients && AckAll(d, ks, clock).clients[c] == d.clients[c]
    ensures var r := AckTurn(d.conns[k].tcp, true, Time(clock, k));
            AckAll(d, ks + {k}, clock).clients ==
              AckAll(d, ks, clock).clients[c := SetEvents(d.clients[c], r.c.events)]
  {
    hide AckTurn, SetEvents, LoggedAll, Acked, AckedClient;
    var r := AckTurn(d.conns[k].tcp, true, Time(clock, k));
    var was := AckAll(d, ks, clock).clients;
    forall x | x in d.clients
      ensures AckedClient(d.clients[x], d.conns, ks + {k}, clock) ==
              was[c := SetEvents(d.clients[c], r.c.events)][x]
      ensures x == c ==> AckedClient(d.clients[x], d.conns, ks, clock) == d.clients[x]
    {
      AckOneClient(d.clients[x], d.conns, ks, k, clock);
    }
    assert AckAll(d, ks + {k}, clock).clients == was[c := SetEvents(d.clients[c], r.c.events)];
  }

  // ---------------------------------------------------------------- entry points

  /** Between steps `client_close` is `Close`. */
  lemma RestNotDead(d: State, c: nat, w: World)
    requires Inv(d)
    ensures CloseReady(d, c) && ClosedBy(d, c, w) == Close(d, c, w)
  {
    hide Close;
    RestCloseReady(d, c);
    if c in d.clients && d.clients[c].state in {Connecting1, Connecting2} {
      RestPaired(d, c);
    }
  }

  /** So it is after a reply was queued. */
  lemma BadCommandReady(d: State, c: nat, tag: u32, w: World)
    requires Inv(d) && c in d.clients
    ensures var d' := d.(clients := d.clients[c := Queue(d.render, d.clients[c], tag, Reply(RESULT_BADCOMMAND))]);
            CloseReady(d', c) && ClosedBy(d', c, w) == Close(d', c, w)
  {
    hide Close, Queue, InvBut;
    QueueLink(d.render, d.clients[c], tag, Reply(RESULT_BADCOMMAND));
    RestCloseReady(d, c);
    if d.clients[c].state in {Connecting1, Connecting2} {
      RestPaired(d, c);
      PairedStill(d, c, d.clients[c].link.value, Queue(d.render, d.clients[c], tag, Reply(RESULT_BADCOMMAND)));
    }
  }

  lemma PairedStill(d: State, c: nat, k: nat, cl: Client)
    requires Paired(d, c, k) && cl.link == d.clients[c].link && cl.connectDevice == d.clients[c].connectDevice
    ensures Paired(d.(clients := d.clients[c := cl]), c, k)
  {
  }

  /** A scan of the connection table moves on by one connection. */
  lemma ScanOne(conns: map<nat, Entry>, done: set<nat>, k: nat, dev: nat)
    requires k in conns && k !in done
    ensures var before, after := OnAmong(conns, done, dev), OnAmong(conns, done + {k}, dev);
            if conns[k].dev == dev then
              |after| == |before| + 1 && PortsOf(conns, after) == PortsOf(conns, before) + {conns[k].tcp.sport}
            else after == before
  {
    var before, after := OnAmong(conns, done, dev), OnAmong(conns, done + {k}, dev);
    if conns[k].dev == dev {
      assert after == before + {k};
    } else {
      assert after == before;
    }
  }

  lemma ListedAppend(ports: seq<u16>, p: u16)
    ensures Ports.Listed(ports + [p]) == Ports.Listed(ports) + {p}
  {
  }

  lemma AtRestConn(d: State, k: nat)
    requires Inv(d) && k in d.conns
    ensures Resting(d.conns[k].tcp)
  {
  }

  /** Outside a device removal `connection_teardown` sends its reset. */
  lemma {:induction false} TearsDown(d: State, k: nat, w: World)
    requires InvBut(d, {k}) && k in d.conns && d.conns[k].tcp.state != Dead
    ensures TearReady(d, k) && TornDown(d, k, w) == TearDown(d, {k}, w, false)
  {
    hide TearDown;
    RestTearReady(d, {k}, k);
    assert EntryOk(d, k);
  }

  /** First match is only match: ports are distinct. */
  lemma OnlyAddressee(d: State, id: nat, s: Segment, k: nat)
    requires Inv(d) && k in Matches(d, id, s)
    ensures d.conns[k].client.Some? && d.conns[k].client.value in d.clients && d.conns[k].tcp.txWin < U16 * 256
    ensures forall l :: l in Matches(d, id, s) ==> l == k
  {
    assert EntryOk(d, k);
  }

  /** A client that is served is found by its device and itself. */
  lemma ServedBy(d: State, c: nat)
    requires Inv(d) && c in d.clients && d.clients[c].state == Streaming
    ensures d.clients[c].link.Some? && Paired(d, c, d.clients[c].link.value)
  {
    SeatFacts(d, c);
    RestPaired(d, c);
  }

  // ---------------------------------------------------------------- the sweep of the timers

  /** `device_check_timeouts` with the connections in `todo` still to be looked at. */
  ghost function Swept(d: State, due: set<nat>, oks: set<nat>, todo: set<nat>, clock: Clock, w: World): State {
    TearDown(AckAll(d, due * oks - todo, clock), due - oks - todo, w, false)
  }

  lemma {:induction false} TimerStart(d: State, due: set<nat>, oks: set<nat>, todo: set<nat>, clock: Clock, w: World)
    requires due <= todo
    ensures Swept(d, due, oks, todo, clock, w) == d
  {
    assert due * oks - todo == {} && due - oks - todo == {};
    AckNone(d, clock);
    TearNone(d, w);
  }

  lemma AckNone(d: State, clock: Clock)
    ensures AckAll(d, {}, clock) == d
  {
    var d' := AckAll(d, {}, clock);
    assert d'.conns == d.conns && d'.clients == d.clients && d'.wire == d.wire;
  }

  lemma TearNone(d: State, w: World)
    ensures TearDown(d, {}, w, false) == d
  {
    var d' := TearDown(d, {}, w, false);
    NoResets(d, w);
    assert d'.conns == d.conns && d'.clients == d.clients && d'.departed == d.departed;
  }

  lemma {:induction false} TimerEnd(d: State, ct: nat, oks: set<nat>, clock: Clock, w: World)
    ensures Swept(d, Due(d, ct), oks, {}, clock, w) == Timeouts(d, ct, oks, clock, w)
  {
    assert Due(d, ct) * oks - {} == Due(d, ct) * oks && Due(d, ct) - oks - {} == Due(d, ct) - oks;
  }

  /** Looking at one more connection: nothing, an acknowledgement, or a teardown. */
  lemma {:induction false} TimerNext(d: State, ct: nat, oks: set<nat>, todo: set<nat>, clock: Clock, w: World, k: nat)
    requires Inv(d) && k in todo && todo <= d.conns.Keys
    ensures var due := Due(d, ct); var s := Swept(d, due, oks, todo, clock, w);
            var s' := Swept(d, due, oks, todo - {k}, clock, w);
            && k in s.conns && s.conns[k] == d.conns[k] && s.devices == d.devices && s.conns[k].client.Some?
            && (k !in due ==> s' == s)
            && (k in due && k in oks ==>
                  var c, r := d.conns[k].client.value, AckTurn(d.conns[k].tcp, true, Time(clock, k));
                  Paired(s, c, k) && s' == Put(s, k, r.c, c, SetEvents(s.clients[c], r.c.events), r.out))
            && (k in due && k !in oks ==> TearReady(s, k) && s' == TornDown(s, k, w))
  {
    hide InvBut, TearDown, AckAll, Paired, Put, AckTurn;
    var due := Due(d, ct);
    var acks, tears := due * oks - todo, due - oks - todo;
    SweptRests(d, ct, acks, tears, clock, w);
    SweptShape(d, acks, tears, clock, w, k);
    if k !in due {
      assert due * oks - (todo - {k}) == acks && due - oks - (todo - {k}) == tears;
    } else if k in oks {
      assert due * oks - (todo - {k}) == acks + {k} && due - oks - (todo - {k}) == tears;
      EntryWindow(d, k);
      TimerAck(d, acks, tears, clock, w, k);
    } else {
      assert due * oks - (todo - {k}) == acks && due - oks - (todo - {k}) == tears + {k};
      TimerTear(d, acks, tears, clock, w, k);
    }
  }

  lemma {:induction false} SweptRests(d: State, ct: nat, acks: set<nat>, tears: set<nat>, clock: Clock, w: World)
    requires Inv(d) && acks <= Due(d, ct) && tears <= Due(d, ct)
    ensures Inv(AckAll(d, acks, clock)) && Inv(TearDown(AckAll(d, acks, clock), tears, w, false))
  {
    hide InvBut, TearDown, AckAll;
    AckAllKeeps(d, acks, clock);
    AckedShape(d, acks, clock);
    Weaken(AckAll(d, acks, clock), tears);
    TearDownKeeps(AckAll(d, acks, clock), tears, w, false);
  }

  /** A connection that was not looked at yet is as it was. */
  lemma SweptShape(d: State, acks: set<nat>, tears: set<nat>, clock: Clock, w: World, k: nat)
    requires Inv(d) && k in d.conns && k !in acks && k !in tears
    ensures var s := TearDown(AckAll(d, acks, clock), tears, w, false);
            k in s.conns && s.conns[k] == d.conns[k] && s.devices == d.devices && d.conns[k].client.Some?
  {
    hide TearDown, LoggedAll;
    TearDownShape(AckAll(d, acks, clock), tears, w, false);
    assert EntryOk(d, k);
  }

  lemma {:induction false} TimerAck(d: State, acks: set<nat>, tears: set<nat>, clock: Clock, w: World, k: nat)
    requires Inv(d) && k in d.conns && k !in acks && k !in tears
    requires d.conns[k].client.Some? && d.conns[k].tcp.txWin < U16 * 256
    requires Inv(AckAll(d, acks, clock)) && Inv(TearDown(AckAll(d, acks, clock), tears, w, false))
    ensures var s := TearDown(AckAll(d, acks, clock), tears, w, false);
            var c := d.conns[k].client.value;
            && Paired(s, c, k)
            && var r := AckTurn(d.conns[k].tcp, true, Time(clock, k));
               TearDown(AckAll(d, acks + {k}, clock), tears, w, false) ==
                   Put(s, k, r.c, c, SetEvents(s.clients[c], r.c.events), r.out)
  {
    hide InvBut, TearDown, AckAll, AckTurn;
    var c, r, d1 := d.conns[k].client.value, AckTurn(d.conns[k].tcp, true, Time(clock, k)), AckAll(d, acks, clock);
    OwnerPaired(d, k);
    AckOneMore(d, acks, k, c, clock);
    RestDisjoint(d1);
    PutTearCommute(d1, tears, k, r.c, c, SetEvents(d.clients[c], r.c.events), r.out, w, false);
    OwnerPaired(TearDown(d1, tears, w, false), k);
  }

  lemma OwnerPaired(d: State, k: nat)
    requires Inv(d) && k in d.conns && d.conns[k].client.Some?
    ensures Paired(d, d.conns[k].client.value, k)
  {
    assert EntryOk(d, k);
    RestPaired(d, d.conns[k].client.value);
  }

  lemma RestDisjoint(d: State)
    requires Inv(d)
    ensures d.clients.Keys !! d.departed.Keys
  {
    assert forall c :: c in d.clients ==> SeatOk(d, c);
  }

  lemma {:induction false} TimerTear(d: State, acks: set<nat>, tears: set<nat>, clock: Clock, w: World, k: nat)
    requires Inv(d) && k in d.conns && k !in acks && k !in tears && d.conns[k].tcp.state == Connected
    requires Inv(AckAll(d, acks, clock)) && Inv(TearDown(AckAll(d, acks, clock), tears, w, false))
    ensures var s := TearDown(AckAll(d, acks, clock), tears, w, false);
            TearReady(s, k) && TearDown(AckAll(d, acks, clock), tears + {k}, w, false) == TornDown(s, k, w)
  {
    hide InvBut, TearDown, AckAll;
    var s := TearDown(AckAll(d, acks, clock), tears, w, false);
    SweptShape(d, acks, tears, clock, w, k);
    Weaken(s, {k});
    TearsDown(s, k, w);
    RestDisjoint(AckAll(d, acks, clock));
    TearDownCompose(AckAll(d, acks, clock), tears, k, w, false);
  }

  // ---------------------------------------------------------------- removing a device

  /** The state half-way through `device_remove`: `gone` are the connections torn down so far. */
  ghost function Removing(d: State, id: nat, gone: set<nat>, w: World): State
    requires id in d.devices
  {
    TearDown(d, gone, w, true).(devices := d.devices[id := d.devices[id].(state := Removed)])
  }

  /** The next connection of the device to be removed. */
  lemma {:induction false} RemoveNext(d: State, id: nat, gone: set<nat>, w: World, k: nat)
    requires Inv(d) && id in d.devices && gone <= On(d, id) && k in On(d, id) && k !in gone
    ensures var s := Removing(d, id, gone, w);
            TearReady(s, k) && TornDown(s, k, w) == Removing(d, id, gone + {k}, w)
  {
    hide InvBut, TearDown, Paired;
    Weaken(d, gone);
    TearDownKeeps(d, gone, w, true);
    TearDownShape(d, gone, w, true);
    var d1, s := TearDown(d, gone, w, true), Removing(d, id, gone, w);
    assert k in d1.conns && d1.conns[k] == d.conns[k];
    OwnerKnown(d1, k);
    Weaken(d1, {k});
    RestTearReady(d1, {k}, k);
    OwnerPaired(d1, k);
    PairedDevices(d1, d1.conns[k].client.value, k, s.devices);
    assert DeviceDead(s, k);
    TearDownDevices(d1, {k}, w, true, s.devices);
    RestDisjoint(d);
    TearDownCompose(d, gone, k, w, true);
  }

  lemma OwnerKnown(d: State, k: nat)
    requires Inv(d) && k in d.conns
    ensures d.conns[k].client.Some? && d.conns[k].tcp.state in {Connecting, Connected}
  {
    assert EntryOk(d, k);
    RestingState(d.conns[k].tcp);
  }

  lemma PairedDevices(d: State, c: nat, k: nat, devices: map<nat, Device>)
    requires Paired(d, c, k)
    ensures Paired(d.(devices := devices), c, k)
  {
  }

  lemma TearNoneDead(d: State, w: World)
    ensures TearDown(d, {}, w, true) == d
  {
    var d' := TearDown(d, {}, w, true);
    assert Resets(d.conns, {}, w, true) == {};
    assert d'.conns == d.conns && d'.clients == d.clients && d'.departed == d.departed && d'.wire == d.wire;
  }

  /** The client of a connection that is coming up waits for the answer. */
  lemma StillWaiting(d: State, k: nat)
    requires Inv(d) && k in d.conns
    ensures d.conns[k].client.Some? && d.conns[k].client.value in d.clients
    ensures d.conns[k].tcp.state == Connecting ==> d.clients[d.conns[k].client.value].state == Connecting1
  {
    assert EntryOk(d, k);
    var c := d.conns[k].client.value;
    SeatFacts(d, c);
    if d.conns[k].tcp.state == Connecting {
      CoupledConnecting(d.render, d.clients[c], d.conns[k].tcp, SkyOf(d.devices, d.nextDevice));
    }
  }
}
