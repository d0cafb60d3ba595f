/**
  The daemon as a whole: every client socket, every device, every connection, as values.
  Operations are given in closed form, by what they do to each client; the class
  `Usbmuxd.Muxd` reaches the same states with the mutually recursive calls of src/client.c
  and src/device.c. Segments from the devices are arbitrary here, honest or not.
 */
module Daemon {
  import opened Words
  import opened Transport
  import Ports

  datatype Option<T> = None | Some(value: T)

  /** CLIENT_COMMAND, CLIENT_LISTEN, CLIENT_CONNECTING1, CLIENT_CONNECTING2, CLIENT_CONNECTED, CLIENT_DEAD. */
  datatype ClientState = Commanding | Listening | Connecting1 | Connecting2 | Streaming | Gone

  const RESULT_OK: nat := 0
  const RESULT_BADCOMMAND: nat := 1
  const RESULT_BADDEV: nat := 2
  const RESULT_CONNREFUSED: nat := 3
  const RESULT_BADVERSION: nat := 6

  /** What a message says: the result of a Connect, of any other command, or news of a device. */
  datatype Note =
    | ConnectReply(code: nat)
    | Reply(code: nat)
    | Attached(id: nat)
    | Detached(id: nat)
    | NowPaired(id: nat)

  /** A message as it was queued: `version` selects the binary or the plist form. */
  datatype Notice = Notice(version: u32, tag: u32, note: Note)

  /** How messages are laid out in bytes; `Handover` fixes it to the usbmuxd protocol. */
  type Render = r: Notice -> seq<byte> | forall n :: r(n) != [] witness _ => [0]

  /** The control stream of a client: its messages, encoded, in order. */
  function Control(render: Render, q: seq<Notice>): seq<byte> {
    if q == [] then [] else Control(render, q[..|q| - 1]) + render(q[|q| - 1])
  }

  /**
    A `mux_client`. `ob` is `ob_buf[..ob_size]`. The rest is history: every message queued, every
    byte the socket took, the tags of the Connect commands received, the payload accepted
    for this client and those written to it, the bytes forwarded to the device on its behalf,
    and the connection that has it as its client.
   */
  datatype Client = Client(state: ClientState, events: Mask, devents: Mask, ob: seq<byte>,
                           version: u32, connectTag: u32, connectDevice: nat,
                           queued: seq<Notice>, sent: seq<byte>, asked: seq<u32>,
                           fromDevice: seq<byte>, delivered: seq<byte>,
                           forwarded: seq<byte>, link: Option<nat>)

  datatype DevState = Init | Active | Removed

  datatype Device = Device(usb: nat, state: DevState, visible: bool, nextSport: u16, version: nat)

  /** A `mux_connection` in the table of its device. */
  datatype Entry = Entry(dev: nat, client: Option<nat>, tcp: Conn)

  /** A packet to a device that belongs to no connection: an anonymous reset, or the SETUP of version 2. */
  datatype Stray = AnonymousReset(dev: nat, s: Segment) | SetUp(dev: nat)

  /**
    `departed` keeps the final record of every closed client, `wire` the segments USB accepted
    for each connection, and `strays` those it accepted outside any connection.
   */
  datatype State = State(render: Render, clients: map<nat, Client>, conns: map<nat, Entry>,
                         devices: map<nat, Device>, departed: map<nat, Client>,
                         wire: map<nat, seq<Segment>>, strays: seq<Stray>,
                         nextClient: nat, nextConn: nat, nextDevice: nat)

  function Boot(render: Render): State {
    State(render, map[], map[], map[], map[], map[], [], 0, 0, 1)
  }

  function Visible(devices: map<nat, Device>): set<nat> {
    set i | i in devices && devices[i].state == Active && devices[i].visible
  }

  // ---------------------------------------------------------------- one client

  /** A client as `client_accept` creates it. */
  function Fresh(): Client {
    Client(Commanding, Mask(true, false), Mask(false, false), [], 0, 0, 0, [], [], [], [], [], [], None)
  }

  /** `output_buffer_add_message` for the message with this tag and content. */
  function Queue(render: Render, cl: Client, tag: u32, note: Note): Client {
    var n := Notice(cl.version, tag, note);
    cl.(queued := cl.queued + [n], ob := cl.ob + render(n), events := cl.events.(wr := true))
  }

  /** The attach messages of `start_listen`. */
  function QueueAttached(render: Render, cl: Client, ids: seq<nat>): Client {
    if ids == [] then cl
    else Queue(render, QueueAttached(render, cl, ids[..|ids| - 1]), 0, Attached(ids[|ids| - 1]))
  }

  /** `client_set_events`. */
  function SetEvents(cl: Client, m: Mask): Client {
    if cl.state == Streaming then cl.(devents := m, events := m)
    else if cl.state == Connecting2 then cl.(devents := m)
    else cl
  }

  /** `client_notify_connect` for a client that waits for it. */
  function Notified(render: Render, cl: Client, code: nat): Client {
    var cl := Queue(render, cl, cl.connectTag, ConnectReply(code));
    if code == RESULT_OK then cl.(state := Connecting2, events := Mask(false, true))
    else cl.(state := Commanding, link := None)
  }

  /** `output_buffer_process` when the socket took the first `n` bytes. */
  function Drained(cl: Client, n: nat): Client
    requires n <= |cl.ob|
  {
    var sent := cl.(ob := cl.ob[n..], sent := cl.sent + cl.ob[..n]);
    if n < |cl.ob| then sent
    else if cl.state == Connecting2 then sent.(state := Streaming, events := cl.devents)
    else sent.(events := cl.events.(wr := false))
  }

  // ---------------------------------------------------------------- teardown

  /** Whether `connection_teardown` sends a reset, `dead` saying that the device is gone. */
  predicate SendsReset(tcp: Conn, dead: bool) {
    !dead && tcp.state != Dying && tcp.state != Refused
  }

  /** A connection that never came up: its client is told and may issue another command. */
  predicate Unborn(tcp: Conn) {
    tcp.state == Refused || tcp.state == Connecting
  }

  /** The final record of the client of a connection that did come up: what the flush moved. */
  function FlushedOut(cl: Client, tcp: Conn, ws: seq<Write>): Client {
    var n := Flushed(tcp, cl.state == Streaming, ws);
    cl.(state := Gone, link := None, sent := cl.sent + tcp.ib[..n], delivered := cl.delivered + tcp.ib[..n])
  }

  /** What USB has accepted for connection `k` so far. */
  function SentFor(wire: map<nat, seq<Segment>>, k: nat): seq<Segment> {
    if k in wire then wire[k] else []
  }

  function Logged(wire: map<nat, seq<Segment>>, k: nat, out: seq<Segment>): map<nat, seq<Segment>> {
    wire[k := SentFor(wire, k) + out]
  }

  /** One segment without payload for each connection in `ks`. */
  function LoggedAll(wire: map<nat, seq<Segment>>, conns: map<nat, Entry>, ks: set<nat>,
                     flag: Flag): map<nat, seq<Segment>> {
    map k | k in wire.Keys + ks ::
      if k in ks && k in conns && conns[k].tcp.txWin < U16 * 256
      then SentFor(wire, k) + [Outgoing(conns[k].tcp, {flag}, [])] else SentFor(wire, k)
  }

  /** How the outside behaves during teardowns: which resets USB takes, how sockets take flushes. */
  datatype World = World(resets: set<nat>, writes: map<nat, seq<Write>>)

  function Writes(w: World, k: nat): seq<Write> {
    if k in w.writes then w.writes[k] else []
  }

  /** The client's connection is one of `ks`. */
  predicate Hit(cl: Client, conns: map<nat, Entry>, ks: set<nat>) {
    cl.link.Some? && cl.link.value in ks && cl.link.value in conns && conns[cl.link.value].tcp.txWin < U16 * 256
  }

  /** What the teardown of its connection makes of a client. */
  function Aftermath(render: Render, cl: Client, conns: map<nat, Entry>, w: World): (last: Client)
    requires Hit(cl, conns, conns.Keys)
    ensures last.link == None
  {
    var k, tcp := cl.link.value, conns[cl.link.value].tcp;
    if Unborn(tcp) then Notified(render, cl, RESULT_CONNREFUSED) else FlushedOut(cl, tcp, Writes(w, k))
  }

  /** It is one of `ks` and did come up: the client goes with it. */
  predicate Leaves(cl: Client, conns: map<nat, Entry>, ks: set<nat>) {
    Hit(cl, conns, ks) && !Unborn(conns[cl.link.value].tcp)
  }

  /** The resets USB accepts when the connections in `ks` go. */
  function Resets(conns: map<nat, Entry>, ks: set<nat>, w: World, dead: bool): set<nat> {
    set k | k in ks && k in conns && SendsReset(conns[k].tcp, dead) && k in w.resets && conns[k].tcp.txWin < U16 * 256
  }

  function Stayers(render: Render, clients: map<nat, Client>, conns: map<nat, Entry>, ks: set<nat>,
                   w: World): map<nat, Client> {
    map c | c in clients && !Leaves(clients[c], conns, ks) ::
      if Hit(clients[c], conns, ks) then Aftermath(render, clients[c], conns, w) else clients[c]
  }

  function Leavers(render: Render, clients: map<nat, Client>, conns: map<nat, Entry>, ks: set<nat>,
                   w: World): map<nat, Client> {
    map c | c in clients && Leaves(clients[c], conns, ks) :: Aftermath(render, clients[c], conns, w)
  }

  /** `connection_teardown` of all connections in `ks`: they go, and each client meets its fate. */
  function TearDown(d: State, ks: set<nat>, w: World, dead: bool): State {
    d.(conns := d.conns - ks, wire := LoggedAll(d.wire, d.conns, Resets(d.conns, ks, w, dead), RST),
       clients := Stayers(d.render, d.clients, d.conns, ks, w),
       departed := d.departed + Leavers(d.render, d.clients, d.conns, ks, w))
  }

  /** `client_close`: a connection in the making goes with its client. */
  function Close(d: State, c: nat, w: World): State {
    if c !in d.clients then d else
    var cl := d.clients[c];
    var mid := cl.state in {Connecting1, Connecting2} && Hit(cl, d.conns, d.conns.Keys);
    var ks := if mid then {cl.link.value} else {};
    d.(clients := d.clients - {c}, departed := d.departed[c := cl.(state := Gone, link := None)],
       conns := d.conns - ks, wire := LoggedAll(d.wire, d.conns, Resets(d.conns, ks, w, false), RST))
  }

  // ---------------------------------------------------------------- devices

  function Broadcast(render: Render, clients: map<nat, Client>, note: Note): map<nat, Client> {
    map c | c in clients ::
      if clients[c].state == Listening then Queue(render, clients[c], 0, note) else clients[c]
  }

  /** `device_add`; the identifier is used up even if the version request cannot be sent. */
  function Attach(d: State, usb: nat, ok: bool): State {
    var d' := d.(nextDevice := d.nextDevice + 1);
    if ok then d'.(devices := d.devices[d.nextDevice := Device(usb, Init, false, 1, 0)]) else d'
  }

  /** A device becomes active and, without preflight, visible at once. */
  function Activated(d: State, id: nat, major: nat): State
    requires id in d.devices
  {
    d.(devices := d.devices[id := d.devices[id].(state := Active, visible := true, version := major)],
       clients := Broadcast(d.render, d.clients, Attached(id)))
  }

  /** `device_version_input`; `ok` says whether USB takes the SETUP packet of version 2. */
  function Version(d: State, id: nat, major: nat, ok: bool): State {
    if id !in d.devices || d.devices[id].state != Init then d
    else if major != 1 && major != 2 then d.(devices := d.devices - {id})
    else Activated(d, id, major).(strays := if major == 2 && ok then d.strays + [SetUp(id)] else d.strays)
  }

  function OnAmong(conns: map<nat, Entry>, ks: set<nat>, id: nat): set<nat> {
    set k | k in conns && k in ks && conns[k].dev == id
  }

  /** The connections of a device. */
  function On(d: State, id: nat): set<nat> {
    OnAmong(d.conns, d.conns.Keys, id)
  }

  /** `device_remove` of the device with this identifier. */
  function Detach(d: State, id: nat, w: World): State {
    if id !in d.devices then d
    else if d.devices[id].state != Active then d.(devices := d.devices - {id})
    else
      var d := TearDown(d, On(d, id), w, true);
      d.(devices := d.devices - {id}, clients := Broadcast(d.render, d.clients, Detached(id)))
  }

  // ---------------------------------------------------------------- commands

  /**
    `ListenOp` carries the order in which the device table happens to be scanned; `SavedOp` is a pair
    record that was saved for device `dev`, `known` saying that the serial number matches.
   */
  datatype Op =
    | ListenOp(order: seq<nat>)
    | ConnectOp(dev: nat, port: u16, synOk: bool, now: nat)
    | ConnectBad(code: nat)
    | SavedOp(dev: nat, known: bool)
    | OtherOp(code: nat)
    | Unreadable

  datatype Command = Command(version: u32, plist: bool, tag: u32, op: Op)

  /** The source ports of some connections. */
  function PortsOf(conns: map<nat, Entry>, ks: set<nat>): set<u16> {
    set k | k in conns && k in ks :: conns[k].tcp.sport
  }

  function PortsOn(d: State, id: nat): set<u16> {
    PortsOf(d.conns, On(d, id))
  }

  /** `device_start_connect` and the reply of `handle_command`. */
  function Connect(d: State, c: nat, tag: u32, dev: nat, port: u16, synOk: bool, now: nat): State
    requires c in d.clients
  {
    var cl := d.clients[c].(asked := d.clients[c].asked + [tag]);
    if dev !in d.devices then d.(clients := d.clients[c := Queue(d.render, cl, tag, ConnectReply(RESULT_BADDEV))])
    else
      var next, live, n := d.devices[dev].nextSport, PortsOn(d, dev), |On(d, dev)|;
      var sport := Ports.SourcePort(live, n, next);
      var d' := d.(devices := d.devices[dev := d.devices[dev].(nextSport := Ports.NextPort(live, n, next))]);
      if sport == 0 then d'.(clients := d.clients[c := Queue(d.render, cl, tag, ConnectReply(RESULT_BADDEV))])
      else if !synOk then d'.(clients := d.clients[c := Queue(d.render, cl, tag, ConnectReply(RESULT_CONNREFUSED))])
      else
        var tcp := Opening(sport, port);
        d'.(conns := d.conns[d.nextConn := Entry(dev, Some(c), AfterSend(tcp, now))], nextConn := d.nextConn + 1,
            clients := d.clients[c := cl.(state := Connecting1, connectTag := tag, connectDevice := dev,
                                          link := Some(d.nextConn))],
            wire := Logged(d.wire, d.nextConn, [Outgoing(tcp, {SYN}, [])]))
  }

  /** A Connect that gets a connection on a device that has not answered the version request yet. */
  predicate EarlyConnect(d: State, dev: nat, synOk: bool) {
    && dev in d.devices && d.devices[dev].state != Active && synOk
    && Ports.SourcePort(PortsOn(d, dev), |On(d, dev)|, d.devices[dev].nextSport) != 0
  }

  predicate Enumerates(ids: seq<nat>, s: set<nat>) {
    (forall i :: 0 <= i < |ids| ==> ids[i] in s) &&
    (forall x :: x in s ==> x in ids) &&
    (forall i, j :: 0 <= i < j < |ids| ==> ids[i] != ids[j])
  }

  /** A command of a client that may issue one, in a protocol version that is known. */
  function Obey(d: State, c: nat, cmd: Command): State
    requires c in d.clients
  {
    var cl := if cmd.plist then d.clients[c].(version := 1) else d.clients[c];
    var d := d.(clients := d.clients[c := cl]);
    match cmd.op
    case ListenOp(order) =>
      var cl := Queue(d.render, cl, cmd.tag, Reply(RESULT_OK)).(state := Listening);
      d.(clients := d.clients[c := QueueAttached(d.render, cl, order)])
    case ConnectOp(dev, port, synOk, now) => Connect(d, c, cmd.tag, dev, port, synOk, now)
    case ConnectBad(code) =>
      var cl := cl.(asked := cl.asked + [cmd.tag]);
      d.(clients := d.clients[c := Queue(d.render, cl, cmd.tag, ConnectReply(code))])
    case SavedOp(dev, known) =>
      var news := known && dev in d.devices && d.devices[dev].state == Active;
      var all := if news then Broadcast(d.render, d.clients, NowPaired(dev)) else d.clients;
      d.(clients := all[c := Queue(d.render, all[c], cmd.tag, Reply(RESULT_OK))])
    case OtherOp(code) => d.(clients := d.clients[c := Queue(d.render, cl, cmd.tag, Reply(code))])
    case Unreadable => d
  }

  /** The reply to a command of an unknown protocol version; a Connect is one Connect more. */
  function BadVersion(render: Render, cl: Client, cmd: Command): Client {
    if cmd.op.ConnectOp? || cmd.op.ConnectBad? then
      Queue(render, cl.(asked := cl.asked + [cmd.tag]), cmd.tag, ConnectReply(RESULT_BADVERSION))
    else Queue(render, cl, cmd.tag, Reply(RESULT_BADVERSION))
  }

  /** `handle_command`. */
  function Handle(d: State, c: nat, cmd: Command, w: World): State
    requires c in d.clients
  {
    var cl := d.clients[c];
    if cl.state != Commanding then
      Close(d.(clients := d.clients[c := Queue(d.render, cl, cmd.tag, Reply(RESULT_BADCOMMAND))]), c, w)
    else if cmd.version != 0 && cmd.version != 1 then
      d.(clients := d.clients[c := BadVersion(d.render, cl, cmd)])
    else
      Obey(d, c, cmd)
  }

  /** `output_buffer_process`; `n` is the result of `send`. */
  function Drain(d: State, c: nat, n: int, w: World): State
    requires c in d.clients
  {
    var cl := d.clients[c];
    if cl.ob == [] then d.(clients := d.clients[c := cl.(events := cl.events.(wr := false))])
    else if n <= 0 then Close(d, c, w)
    else d.(clients := d.clients[c := Drained(cl, Min(n, |cl.ob|))])
  }

  // ---------------------------------------------------------------- traffic

  /** The connections a segment from device `id` can belong to. */
  function Matches(d: State, id: nat, s: Segment): set<nat> {
    set k | k in d.conns && d.conns[k].dev == id && d.conns[k].tcp.sport == s.dport && d.conns[k].tcp.dport == s.sport
  }

  /** Replace the connection and the record of its client; `out` went to USB. */
  function Put(d: State, k: nat, tcp: Conn, c: nat, cl: Client, out: seq<Segment>): State
    requires k in d.conns
  {
    d.(conns := d.conns[k := d.conns[k].(tcp := tcp)], clients := d.clients[c := cl], wire := Logged(d.wire, k, out))
  }

  /** `device_tcp_input` for connection `k` of client `c`. */
  function SegmentTo(d: State, k: nat, c: nat, s: Segment, ok: bool, now: nat, w: World): State
    requires k in d.conns && c in d.clients && d.conns[k].tcp.txWin < U16 * 256
  {
    var cl, tcp := d.clients[c], d.conns[k].tcp;
    var r := SegmentIn(tcp, s, ok, now);
    var cl := cl.(fromDevice := cl.fromDevice + Accepted(tcp, s));
    match r.verdict
    case Keep => Put(d, k, r.c, c, SetEvents(cl, r.c.events), r.out)
    case Established => Put(d, k, r.c, c, SetEvents(Notified(d.render, cl, RESULT_OK), r.c.events), r.out)
    case _ => TearDown(Put(d, k, r.c, c, cl, r.out), {k}, w, false)
  }

  /** `device_client_process` for client `c` and its connection `k`. */
  function TurnOf(d: State, k: nat, c: nat, ev: Mask, wrote: int, got: Got, ok: bool, now: nat, w: World): State
    requires k in d.conns && c in d.clients && d.conns[k].tcp.txWin < U16 * 256
  {
    var cl, tcp := d.clients[c], d.conns[k].tcp;
    var t := ClientTurn(tcp, ev, wrote, got, ok, now);
    var gone := tcp.ib[..Min(t.written, |tcp.ib|)];
    var cl := cl.(sent := cl.sent + gone, delivered := cl.delivered + gone, forwarded := cl.forwarded + t.taken);
    if t.keep then Put(d, k, t.c, c, SetEvents(cl, t.c.events), t.out)
    else TearDown(Put(d, k, t.c, c, cl, t.out), {k}, w, false)
  }

  /** The time `send_tcp` reads for each connection. */
  type Clock = map<nat, nat>

  function Time(clock: Clock, k: nat): nat {
    if k in clock then clock[k] else 0
  }

  /** The unsigned 64-bit age of the last acknowledgement at time `ct`. */
  function Age(tcp: Conn, ct: nat): nat {
    (ct - tcp.lastAckTime) % U64
  }

  /** Connections whose acknowledgement is overdue at time `ct`. */
  function Due(d: State, ct: nat): set<nat> {
    set k | k in d.conns && d.conns[k].dev in d.devices && d.devices[d.conns[k].dev].state == Active
            && d.conns[k].tcp.state == Connected && d.conns[k].tcp.ackPending && Age(d.conns[k].tcp, ct) > ACK_TIMEOUT
  }

  /** The acknowledgements of `device_check_timeouts` that USB takes. */
  function Acked(conns: map<nat, Entry>, ks: set<nat>, clock: Clock): map<nat, Entry> {
    map k | k in conns ::
      if k in ks && conns[k].tcp.txWin < U16 * 256
      then conns[k].(tcp := AckTurn(conns[k].tcp, true, Time(clock, k)).c) else conns[k]
  }

  /** What they mean for a client. */
  function AckedClient(cl: Client, conns: map<nat, Entry>, ks: set<nat>, clock: Clock): Client {
    if Hit(cl, conns, ks) then
      SetEvents(cl, AckTurn(conns[cl.link.value].tcp, true, Time(clock, cl.link.value)).c.events)
    else cl
  }

  function AckAll(d: State, ks: set<nat>, clock: Clock): State {
    d.(conns := Acked(d.conns, ks, clock),
       clients := map c | c in d.clients :: AckedClient(d.clients[c], d.conns, ks, clock),
       wire := LoggedAll(d.wire, d.conns, ks * d.conns.Keys, ACK))
  }

  /** `device_check_timeouts`; `oks` are the connections whose acknowledgement can be sent. */
  function Timeouts(d: State, ct: nat, oks: set<nat>, clock: Clock, w: World): State {
    var due := Due(d, ct);
    TearDown(AckAll(d, due * oks, clock), due - oks, w, false)
  }
}
