/**
  What every reachable state of the daemon satisfies, and why every step keeps it.
 */
module DaemonInv {
  import opened Words
  import opened Transport
  import opened Daemon

  // ---------------------------------------------------------------- what messages say

  /** The tags of the Connect results in a list of messages. */
  function Replies(q: seq<Notice>): seq<u32> {
    if q == [] then [] else
    var n := q[|q| - 1];
    Replies(q[..|q| - 1]) + (if n.note.ConnectReply? then [n.tag] else [])
  }

  /** The devices a listener believes in, and all it has ever heard of. */
  datatype Belief = Belief(live: set<nat>, heard: set<nat>)

  /**
    Replaying device messages: `None` if a device is announced twice, or withdrawn or reported paired
    when it was not there.
   */
  function Replay(q: seq<Notice>): Option<Belief> {
    if q == [] then Some(Belief({}, {})) else
    var b := Replay(q[..|q| - 1]);
    match q[|q| - 1].note
    case Attached(i) =>
      if b.Some? && i !in b.value.heard then Some(Belief(b.value.live + {i}, b.value.heard + {i})) else None
    case Detached(i) =>
      if b.Some? && i in b.value.live then Some(Belief(b.value.live - {i}, b.value.heard)) else None
    case NowPaired(i) =>
      if b.Some? && i in b.value.live then b else None
    case _ => b
  }

  /** No Connect in this list was granted. */
  ghost predicate NoneGranted(q: seq<Notice>) {
    forall i :: 0 <= i < |q| ==> q[i].note != ConnectReply(RESULT_OK)
  }

  /** The last message grants the Connect with this tag, and no earlier one does. */
  ghost predicate LastGrants(q: seq<Notice>, tag: u32) {
    q != [] && q[|q| - 1].tag == tag && q[|q| - 1].note == ConnectReply(RESULT_OK) && NoneGranted(q[..|q| - 1])
  }

  // ---------------------------------------------------------------- one client and its connection

  /** Client states and connection states go together. */
  ghost predicate Coupled(s: ClientState, tcp: Option<Conn>) {
    match s
    case Commanding => tcp.None?
    case Listening => tcp.None?
    case Connecting1 => tcp.Some? && Unborn(tcp.value) && tcp.value.ib == []
    case Connecting2 => tcp.Some? && tcp.value.state in {Connected, Dying}
    case Streaming => tcp.Some? && tcp.value.state in {Connected, Dying}
    case Gone => false
  }

  /** The socket has seen control messages and then a prefix of the device's stream. */
  ghost predicate Streams(render: Render, cl: Client, tcp: Option<Conn>) {
    && (cl.state != Streaming ==> cl.delivered == cl.forwarded == [] && cl.sent + cl.ob == Control(render, cl.queued))
    && (cl.state == Streaming ==> cl.ob == [] && cl.sent == Control(render, cl.queued) + cl.delivered)
    && (if cl.state in {Connecting2, Streaming} then
          tcp.Some? && cl.delivered + tcp.value.ib == cl.fromDevice && LastGrants(cl.queued, cl.connectTag)
        else
          cl.fromDevice == [] && NoneGranted(cl.queued))
  }

  /** Every Connect has been answered, in order and with its tag, but for the one under way. */
  ghost predicate Answered(cl: Client) {
    cl.asked == Replies(cl.queued) + (if cl.state == Connecting1 then [cl.connectTag] else [])
  }

  /** The device table as listeners may see it: shown, not yet shown, and a bound on all identifiers. */
  datatype Sky = Sky(visible: set<nat>, pending: set<nat>, bound: nat)

  /** A listener believes in exactly the visible devices; nobody else has heard of any. */
  ghost predicate Informed(cl: Client, sky: Sky) {
    var b := Replay(cl.queued);
    b.Some? &&
    if cl.state == Listening then
      b.value.live == sky.visible && b.value.heard !! sky.pending && forall i :: i in b.value.heard ==> i < sky.bound
    else
      b.value == Belief({}, {})
  }

  ghost predicate Core(render: Render, cl: Client, tcp: Option<Conn>, sky: Sky) {
    Coupled(cl.state, tcp) && Streams(render, cl, tcp) && Answered(cl) && Informed(cl, sky)
  }

  /** A client is polled for exactly what it or its connection can make use of. */
  ghost predicate Polled(cl: Client, tcp: Option<Conn>) {
    match cl.state
    case Connecting2 => cl.events == Mask(false, true) && cl.ob != [] && tcp.Some? && cl.devents == tcp.value.events
    case Streaming => tcp.Some? && cl.events == cl.devents == tcp.value.events
    case _ => cl.events == Mask(true, cl.ob != [])
  }

  /** A connection at rest. */
  ghost predicate Resting(tcp: Conn) {
    && tcp.state in {Connecting, Connected}
    && tcp.txWin == TX_WINDOW && tcp.sport != 0
    && (tcp.state == Connected ==> Settled(tcp))
    && (tcp.state == Connecting ==> !tcp.ackPending)
    && |tcp.ib| <= CONN_INBUF_SIZE
  }

  /** The record of a client that is gone. */
  ghost predicate Closed(render: Render, cl: Client) {
    && cl.state == Gone && cl.link == None
    && (if cl.delivered == [] then cl.sent <= Control(render, cl.queued)
        else
          && cl.sent == Control(render, cl.queued) + cl.delivered
          && cl.delivered <= cl.fromDevice && LastGrants(cl.queued, cl.connectTag))
    && Replies(cl.queued) <= cl.asked && |cl.asked| <= |Replies(cl.queued)| + 1
    && Replay(cl.queued).Some?
  }

  // ---------------------------------------------------------------- the whole

  /** The connection a client is linked to. */
  function Linked(conns: map<nat, Entry>, cl: Client): Option<Conn> {
    if cl.link.Some? && cl.link.value in conns then Some(conns[cl.link.value].tcp) else None
  }

  function SkyOf(devices: map<nat, Device>, bound: nat): Sky {
    Sky(Visible(devices), (set i | i in devices && devices[i].state == Init), bound)
  }

  ghost predicate DevicesOk(devices: map<nat, Device>, bound: nat) {
    && (forall i :: i in devices ==>
          && i < bound
          && devices[i].state in {Init, Active}
          && devices[i].visible == (devices[i].state == Active))
    && (forall i, j :: i in devices && j in devices && i != j ==> devices[i].usb != devices[j].usb)
  }

  /** A connection and its client point at each other, on an active device. */
  ghost predicate EntryOk(d: State, k: nat)
    requires k in d.conns
  {
    var e := d.conns[k];
    && k < d.nextConn && e.tcp.txWin == TX_WINDOW && e.tcp.sport != 0
    && e.client.Some? && e.client.value in d.clients
    && d.clients[e.client.value].link == Some(k) && d.clients[e.client.value].connectDevice == e.dev
    && e.dev in d.devices && d.devices[e.dev].state == Active
  }

  ghost predicate SeatOk(d: State, c: nat)
    requires c in d.clients
  {
    && c < d.nextClient && c !in d.departed
    && var link := d.clients[c].link; link.Some? ==> link.value in d.conns && d.conns[link.value].client == Some(c)
  }

  ghost predicate PortsOk(conns: map<nat, Entry>) {
    forall k, l :: k in conns && l in conns && k != l && conns[k].dev == conns[l].dev ==>
      conns[k].tcp.sport != conns[l].tcp.sport
  }

  /** Nothing dangles: the tables refer to each other one to one. */
  ghost predicate Links(d: State) {
    && DevicesOk(d.devices, d.nextDevice) && PortsOk(d.conns)
    && (forall k :: k in d.conns ==> EntryOk(d, k))
    && (forall c :: c in d.clients ==> SeatOk(d, c))
    && (forall c :: c in d.departed ==> c < d.nextClient)
  }

  /** A client whose established connection is in `ks`. */
  ghost predicate Going(cl: Client, ks: set<nat>) {
    cl.link.Some? && cl.link.value in ks && cl.state != Connecting1
  }

  /** Each client agrees with its connection; those of `ks` may be about to go. */
  ghost predicate Agree(render: Render, clients: map<nat, Client>, conns: map<nat, Entry>, sky: Sky, ks: set<nat>) {
    forall c :: c in clients ==>
      && Core(render, clients[c], Linked(conns, clients[c]), sky)
      && (Polled(clients[c], Linked(conns, clients[c])) || Going(clients[c], ks))
  }

  ghost predicate AllResting(conns: map<nat, Entry>, ks: set<nat>) {
    forall k :: k in conns && k !in ks ==> Resting(conns[k].tcp)
  }

  ghost predicate Archived(render: Render, departed: map<nat, Client>) {
    forall c :: c in departed ==> Closed(render, departed[c])
  }

  /** The invariant, save that the connections of `ks` are about to be torn down. */
  ghost predicate InvBut(d: State, ks: set<nat>) {
    && Links(d)
    && Agree(d.render, d.clients, d.conns, SkyOf(d.devices, d.nextDevice), ks)
    && AllResting(d.conns, ks)
    && Archived(d.render, d.departed)
  }

  /** The invariant of the daemon between steps. */
  ghost predicate Inv(d: State) {
    InvBut(d, {})
  }

  lemma BootInv(render: Render)
    ensures Inv(Boot(render))
  {
  }

  // ---------------------------------------------------------------- messages

  lemma QueueFacts(render: Render, cl: Client, tag: u32, note: Note)
    ensures var cl' := Queue(render, cl, tag, note);
            && cl'.queued[..|cl'.queued| - 1] == cl.queued
            && Control(render, cl'.queued) == Control(render, cl.queued) + render(Notice(cl.version, tag, note))
            && Replies(cl'.queued) == Replies(cl.queued) + (if note.ConnectReply? then [tag] else [])
            && cl'.ob != []
  {
    var cl' := Queue(render, cl, tag, note);
    assert cl'.queued[..|cl'.queued| - 1] == cl.queued;
  }

  /** Queueing a reply other than a grant keeps everything a client without payload satisfies. */
  lemma QueueReply(render: Render, cl: Client, tcp: Option<Conn>, sky: Sky, tag: u32, note: Note)
    requires Core(render, cl, tcp, sky) && cl.state in {Commanding, Listening, Connecting1}
    requires note.Reply?
    ensures Core(render, Queue(render, cl, tag, note), tcp, sky)
  {
    QueueFacts(render, cl, tag, note);
    var b := render(Notice(cl.version, tag, note));
    assert cl.sent + (cl.ob + b) == (cl.sent + cl.ob) + b;
  }

  /** A refused Connect: asked and answered in the same step. */
  lemma QueueRefusal(render: Render, cl: Client, sky: Sky, tag: u32, code: nat)
    requires Core(render, cl, None, sky) && cl.state == Commanding && code != RESULT_OK
    ensures Core(render, Queue(render, cl.(asked := cl.asked + [tag]), tag, ConnectReply(code)), None, sky)
  {
    var cl1 := cl.(asked := cl.asked + [tag]);
    QueueFacts(render, cl1, tag, ConnectReply(code));
    var b := render(Notice(cl.version, tag, ConnectReply(code)));
    assert cl.sent + (cl.ob + b) == (cl.sent + cl.ob) + b;
  }

  /** The answer to a Connect that was under way. */
  lemma {:induction false} QueueAnswer(render: Render, cl: Client, tcp: Option<Conn>, sky: Sky, code: nat,
                                       tcp': Option<Conn>)
    requires Core(render, cl, tcp, sky) && cl.state == Connecting1
    requires if code == RESULT_OK then tcp'.Some? && tcp'.value.state == Connected && tcp'.value.ib == []
        else tcp'.None?
    ensures Core(render, Notified(render, cl, code), tcp', sky)
  {
    QueueFacts(render, cl, cl.connectTag, ConnectReply(code));
    var b := render(Notice(cl.version, cl.connectTag, ConnectReply(code)));
    assert cl.sent + (cl.ob + b) == (cl.sent + cl.ob) + b;
    assert [] + (if tcp'.Some? then tcp'.value.ib else []) == [];
  }

  /** News of a device keeps a listener informed. */
  lemma QueueAttach(render: Render, cl: Client, sky: Sky, id: nat, sky': Sky)
    requires Core(render, cl, None, sky) && cl.state == Listening
    requires id < sky.bound == sky'.bound && id !in Replay(cl.queued).value.heard
    requires sky'.visible == sky.visible + {id} && sky'.pending <= sky.pending - {id}
    ensures Core(render, Queue(render, cl, 0, Attached(id)), None, sky')
    ensures Replay(Queue(render, cl, 0, Attached(id)).queued).value.heard == Replay(cl.queued).value.heard + {id}
  {
    QueueFacts(render, cl, 0, Attached(id));
    var cl', b := Queue(render, cl, 0, Attached(id)), render(Notice(cl.version, 0, Attached(id)));
    assert cl.sent + (cl.ob + b) == (cl.sent + cl.ob) + b;
    assert Replay(cl'.queued) == Some(Belief(Replay(cl.queued).value.live + {id},
        Replay(cl.queued).value.heard + {id}));
    assert Streams(render, cl', None);
    assert Informed(cl', sky');
  }

  lemma QueuePaired(render: Render, cl: Client, sky: Sky, id: nat)
    requires Core(render, cl, None, sky) && cl.state == Listening && id in sky.visible
    ensures Core(render, Queue(render, cl, 0, NowPaired(id)), None, sky)
  {
    QueueFacts(render, cl, 0, NowPaired(id));
    var b := render(Notice(cl.version, 0, NowPaired(id)));
    assert cl.sent + (cl.ob + b) == (cl.sent + cl.ob) + b;
  }

  lemma QueueDetach(render: Render, cl: Client, sky: Sky, id: nat, sky': Sky)
    requires Core(render, cl, None, sky) && cl.state == Listening
    requires id in sky.visible && sky' == sky.(visible := sky.visible - {id})
    ensures Core(render, Queue(render, cl, 0, Detached(id)), None, sky')
  {
    QueueFacts(render, cl, 0, Detached(id));
    var cl', b := Queue(render, cl, 0, Detached(id)), render(Notice(cl.version, 0, Detached(id)));
    assert cl.sent + (cl.ob + b) == (cl.sent + cl.ob) + b;
    assert Replay(cl'.queued) == Some(Belief(Replay(cl.queued).value.live - {id}, Replay(cl.queued).value.heard));
    assert Streams(render, cl', None);
    assert Informed(cl', sky');
  }

  // ---------------------------------------------------------------- frames

  /** Changing one client that keeps its connection, or has none. */
  lemma ReseatKeeps(d: State, c: nat, cl: Client, ks: set<nat>)
    requires Inv(d) && c in d.clients
    requires cl.link == d.clients[c].link && cl.connectDevice == d.clients[c].connectDevice
    requires Core(d.render, cl, Linked(d.conns, cl), SkyOf(d.devices, d.nextDevice))
    requires Polled(cl, Linked(d.conns, cl)) || Going(cl, ks)
    ensures InvBut(d.(clients := d.clients[c := cl]), ks)
  {
    hide Core, Polled, Closed, Resting, DevicesOk, PortsOk, SkyOf;
    ReseatLinks(d, c, cl);
  }

  lemma ReseatLinks(d: State, c: nat, cl: Client)
    requires Links(d) && c in d.clients
    requires cl.link == d.clients[c].link && cl.connectDevice == d.clients[c].connectDevice
    ensures Links(d.(clients := d.clients[c := cl]))
  {
    var d' := d.(clients := d.clients[c := cl]);
    forall k | k in d'.conns ensures EntryOk(d', k) {
      assert EntryOk(d, k);
    }
    forall x | x in d'.clients ensures SeatOk(d', x) {
      assert SeatOk(d, x);
    }
  }

  lemma PutPorts(conns: map<nat, Entry>, k: nat, tcp: Conn)
    requires PortsOk(conns) && k in conns && tcp.sport == conns[k].tcp.sport
    ensures PortsOk(conns[k := conns[k].(tcp := tcp)])
  {
  }

  lemma PutLinks(d: State, k: nat, tcp: Conn, c: nat, cl: Client, out: seq<Segment>)
    requires Links(d) && k in d.conns && d.conns[k].client == Some(c) && c in d.clients
    requires cl.link == Some(k) && cl.connectDevice == d.clients[c].connectDevice
    requires tcp.sport == d.conns[k].tcp.sport && tcp.txWin == TX_WINDOW
    ensures Links(Put(d, k, tcp, c, cl, out))
  {
    hide DevicesOk, PortsOk;
    PutPorts(d.conns, k, tcp);
    var d' := Put(d, k, tcp, c, cl, out);
    assert EntryOk(d, k);
    forall l | l in d'.conns ensures EntryOk(d', l) {
      assert EntryOk(d, l);
    }
    forall x | x in d'.clients ensures SeatOk(d', x) {
      assert SeatOk(d, x);
    }
  }

  /** Changing a connection together with its client, as the other clients see it. */
  lemma PutAgrees(d: State, k: nat, tcp: Conn, c: nat, cl: Client, sky: Sky, ks: set<nat>)
    requires Links(d) && Agree(d.render, d.clients, d.conns, sky, {})
    requires k in d.conns && d.conns[k].client == Some(c) && c in d.clients && cl.link == Some(k)
    requires Core(d.render, cl, Some(tcp), sky) && (Polled(cl, Some(tcp)) || Going(cl, ks))
    ensures Agree(d.render, d.clients[c := cl], d.conns[k := d.conns[k].(tcp := tcp)], sky, ks)
  {
    hide Core, Polled, DevicesOk, PortsOk, SkyOf;
    var conns := d.conns[k := d.conns[k].(tcp := tcp)];
    forall x | x in d.clients && x != c ensures Linked(conns, d.clients[x]) == Linked(d.conns, d.clients[x]) {
      assert SeatOk(d, x);
    }
  }

  /** Changing a connection together with its client. */
  lemma {:induction false} PutKeeps(d: State, k: nat, tcp: Conn, c: nat, cl: Client, out: seq<Segment>)
    requires Inv(d) && k in d.conns && d.conns[k].client == Some(c) && c in d.clients
    requires cl.link == Some(k) && cl.connectDevice == d.clients[c].connectDevice
    requires tcp.sport == d.conns[k].tcp.sport && tcp.txWin == TX_WINDOW
    requires Core(d.render, cl, Some(tcp), SkyOf(d.devices, d.nextDevice))
    requires cl.state == Connecting1 ==> Polled(cl, Some(tcp))
    ensures InvBut(Put(d, k, tcp, c, cl, out), {k})
    ensures Resting(tcp) && Polled(cl, Some(tcp)) ==> Inv(Put(d, k, tcp, c, cl, out))
  {
    hide Core, Polled, Closed, Resting, SkyOf, Agree, Links, Logged;
    PutLinks(d, k, tcp, c, cl, out);
    PutAgrees(d, k, tcp, c, cl, SkyOf(d.devices, d.nextDevice), {k});
    if Polled(cl, Some(tcp)) {
      PutAgrees(d, k, tcp, c, cl, SkyOf(d.devices, d.nextDevice), {});
    }
  }

  // ---------------------------------------------------------------- teardown

  /** A client whose connection never came up goes back to commands. */
  lemma RefusedKeeps(render: Render, cl: Client, tcp: Conn, sky: Sky)
    requires Core(render, cl, Some(tcp), sky) && Polled(cl, Some(tcp)) && Unborn(tcp) && tcp.txWin == TX_WINDOW
    ensures var cl' := Notified(render, cl, RESULT_CONNREFUSED);
            Core(render, cl', None, sky) && Polled(cl', None) && cl'.link == None
  {
    QueueAnswer(render, cl, Some(tcp), sky, RESULT_CONNREFUSED, None);
  }

  /** Through the flush, the socket has seen control messages and a prefix of the device stream. */
  lemma FlushedOutClosed(render: Render, cl: Client, tcp: Conn, sky: Sky, ws: seq<Write>)
    requires Core(render, cl, Some(tcp), sky) && !Unborn(tcp) && tcp.txWin == TX_WINDOW
    ensures Closed(render, FlushedOut(cl, tcp, ws))
  {
    var n := Flushed(tcp, cl.state == Streaming, ws);
    var last := FlushedOut(cl, tcp, ws);
    assert cl.delivered + tcp.ib == (cl.delivered + tcp.ib[..n]) + tcp.ib[n..];
    assert Replies(cl.queued) == cl.asked;
    if cl.state == Streaming {
      assert last.sent == Control(render, cl.queued) + (cl.delivered + tcp.ib[..n]);
      if last.delivered == [] {
        assert last.sent == Control(render, cl.queued);
      }
    } else {
      assert last.delivered == [] && last.sent == cl.sent;
    }
  }

  lemma TearDownEntry(d: State, ks: set<nat>, w: World, dead: bool, k: nat)
    requires k in d.conns && k !in ks && EntryOk(d, k)
    ensures EntryOk(TearDown(d, ks, w, dead), k)
  {
    hide Aftermath, LoggedAll, Resets;
  }

  lemma TearDownChair(d: State, ks: set<nat>, w: World, dead: bool, c: nat)
    requires c in d.clients && SeatOk(d, c) && !Leaves(d.clients[c], d.conns, ks)
    requires d.clients[c].link.Some? ==> d.clients[c].link.value in d.conns && EntryOk(d, d.clients[c].link.value)
    ensures SeatOk(TearDown(d, ks, w, dead), c)
  {
    hide LoggedAll, Resets, FlushedOut, Notified;
  }

  lemma TearDownLinks(d: State, ks: set<nat>, w: World, dead: bool)
    requires Links(d) && ks <= d.conns.Keys
    ensures Links(TearDown(d, ks, w, dead))
  {
    hide DevicesOk, Aftermath, LoggedAll, Resets, EntryOk, SeatOk, PortsOk;
    var d' := TearDown(d, ks, w, dead);
    forall k | k in d'.conns ensures EntryOk(d', k) {
      TearDownEntry(d, ks, w, dead, k);
    }
    forall c | c in d'.clients ensures SeatOk(d', c) {
      SeatEntry(d, c);
      TearDownChair(d, ks, w, dead, c);
    }
    TearDownPorts(d, ks, w, dead);
    forall c | c in d'.departed ensures c < d'.nextClient {
      if c in d.clients {
        SeatEntry(d, c);
      }
    }
  }

  lemma SeatEntry(d: State, c: nat)
    requires Links(d) && c in d.clients
    ensures c < d.nextClient
    ensures d.clients[c].link.Some? ==> d.clients[c].link.value in d.conns && EntryOk(d, d.clients[c].link.value)
  {
    assert SeatOk(d, c);
  }

  lemma TearDownPorts(d: State, ks: set<nat>, w: World, dead: bool)
    requires PortsOk(d.conns)
    ensures PortsOk(TearDown(d, ks, w, dead).conns)
  {
    hide LoggedAll, Resets, Aftermath;
  }

  /** What is known of a client whose connection is being torn down. */
  lemma HitSeat(d: State, ks: set<nat>, c: nat)
    requires InvBut(d, ks) && c in d.clients && Hit(d.clients[c], d.conns, ks)
    ensures var cl := d.clients[c]; var tcp := d.conns[cl.link.value].tcp;
            && tcp.txWin == TX_WINDOW
            && Core(d.render, cl, Some(tcp), SkyOf(d.devices, d.nextDevice))
            && (Unborn(tcp) ==> Polled(cl, Some(tcp)))
  {
    assert EntryOk(d, d.clients[c].link.value);
    assert Linked(d.conns, d.clients[c]) == Some(d.conns[d.clients[c].link.value].tcp);
  }

  /** Each remaining client of a teardown, hit or not. */
  lemma {:induction false} TearDownSeat(d: State, ks: set<nat>, w: World, dead: bool, c: nat)
    requires InvBut(d, ks) && ks <= d.conns.Keys && c in TearDown(d, ks, w, dead).clients
    ensures var d' := TearDown(d, ks, w, dead);
            && Core(d.render, d'.clients[c], Linked(d'.conns, d'.clients[c]), SkyOf(d.devices, d.nextDevice))
            && Polled(d'.clients[c], Linked(d'.conns, d'.clients[c]))
  {
    hide Core, Polled, Closed, Resting, DevicesOk, PortsOk, SkyOf, Notified, FlushedOut, LoggedAll, Resets;
    assert SeatOk(d, c);
    if Hit(d.clients[c], d.conns, ks) {
      var cl := d.clients[c];
      var k, tcp := cl.link.value, d.conns[cl.link.value].tcp;
      HitSeat(d, ks, c);
      RefusedKeeps(d.render, cl, tcp, SkyOf(d.devices, d.nextDevice));
    } else if d.clients[c].link.Some? {
      assert EntryOk(d, d.clients[c].link.value);
    }
  }

  lemma {:induction false} TearDownLast(d: State, ks: set<nat>, w: World, c: nat)
    requires InvBut(d, ks) && c in d.clients && Leaves(d.clients[c], d.conns, ks)
    ensures Closed(d.render, Aftermath(d.render, d.clients[c], d.conns, w))
  {
    HitSeat(d, ks, c);
    var cl := d.clients[c];
    var k, tcp := cl.link.value, d.conns[cl.link.value].tcp;
    FlushedOutClosed(d.render, cl, tcp, SkyOf(d.devices, d.nextDevice), Writes(w, k));
  }

  lemma {:induction false} TearDownKeeps(d: State, ks: set<nat>, w: World, dead: bool)
    requires InvBut(d, ks) && ks <= d.conns.Keys
    ensures Inv(TearDown(d, ks, w, dead))
  {
    var d' := TearDown(d, ks, w, dead);
    TearDownLinks(d, ks, w, dead);
    assert Agree(d'.render, d'.clients, d'.conns, SkyOf(d'.devices, d'.nextDevice), {}) by {
      forall c | c in d'.clients
        ensures Core(d.render, d'.clients[c], Linked(d'.conns, d'.clients[c]), SkyOf(d.devices, d.nextDevice))
        ensures Polled(d'.clients[c], Linked(d'.conns, d'.clients[c]))
      {
        TearDownSeat(d, ks, w, dead, c);
      }
    }
    assert Archived(d'.render, d'.departed) by {
      forall c | c in d'.departed ensures Closed(d'.render, d'.departed[c]) {
        if c in d.clients && Leaves(d.clients[c], d.conns, ks) {
          TearDownLast(d, ks, w, c);
        }
      }
    }
  }

  /** The connections that `client_close` takes along. */
  function Doomed(cl: Client): set<nat> {
    if cl.link.Some? then {cl.link.value} else {}
  }

  lemma CloseLinks(d: State, c: nat, w: World)
    requires Links(d) && c in d.clients
    requires d.clients[c].link.Some? ==> d.clients[c].state in {Connecting1, Connecting2}
    ensures Links(Close(d, c, w))
  {
    hide DevicesOk, LoggedAll, Resets;
    var d' := Close(d, c, w);
    assert SeatOk(d, c);
    if d.clients[c].link.Some? {
      assert EntryOk(d, d.clients[c].link.value);
    }
    forall x | x in d'.clients ensures SeatOk(d', x) {
      assert SeatOk(d, x);
    }
    forall k | k in d'.conns ensures EntryOk(d', k) {
      assert EntryOk(d, k);
    }
  }

  lemma CloseClosed(d: State, c: nat, w: World)
    requires c in d.clients && c in Close(d, c, w).departed
    requires d.clients[c].state in {Commanding, Listening, Connecting1, Connecting2}
    requires exists tcp, sky :: Core(d.render, d.clients[c], tcp, sky)
    ensures Closed(d.render, Close(d, c, w).departed[c])
  {
    var cl := d.clients[c];
    assert cl.sent <= Control(d.render, cl.queued);
    assert cl.asked == Replies(cl.queued) + (if cl.state == Connecting1 then [cl.connectTag] else []);
  }

  /** A client that is closed before it streams takes its connection with it. */
  lemma {:induction false} CloseKeeps(d: State, c: nat, w: World)
    requires c in d.clients && InvBut(d, Doomed(d.clients[c])) && d.clients[c].state != Streaming
    ensures Inv(Close(d, c, w))
  {
    var d', cl := Close(d, c, w), d.clients[c];
    assert SeatOk(d, c) && Core(d.render, cl, Linked(d.conns, cl), SkyOf(d.devices, d.nextDevice));
    CloseLinks(d, c, w);
    CloseClosed(d, c, w);
    CloseAgrees(d, c, w);
  }

  lemma {:induction false} CloseAgrees(d: State, c: nat, w: World)
    requires c in d.clients && InvBut(d, Doomed(d.clients[c]))
    requires d.clients[c].link.Some? ==> d.clients[c].state in {Connecting1, Connecting2}
    ensures var d' := Close(d, c, w);
            && Agree(d.render, d'.clients, d'.conns, SkyOf(d.devices, d.nextDevice), {})
            && AllResting(d'.conns, {})
  {
    hide Core, Polled, Closed, Resting, DevicesOk, PortsOk, SkyOf, Archived, LoggedAll, Resets;
    var d', cl := Close(d, c, w), d.clients[c];
    assert SeatOk(d, c);
    if cl.link.Some? {
      assert EntryOk(d, cl.link.value);
      assert d'.conns == d.conns - {cl.link.value};
    }
    forall x | x in d'.clients
      ensures Linked(d'.conns, d.clients[x]) == Linked(d.conns, d.clients[x])
      ensures !Going(d.clients[x], Doomed(cl))
    {
      assert SeatOk(d, x);
    }
  }
}
