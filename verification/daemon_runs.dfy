/**
  Runs of the daemon: arbitrary sequences of what the sockets, the devices and the clock may do.
 */
module DaemonRuns {
  import opened Words
  import opened Transport
  import opened Daemon
  import opened DaemonInv
  import opened DaemonSteps

  datatype Event =
    | Accept
    | DeviceArrives(usb: nat, ok: bool)
    | VersionArrives(id: nat, major: nat, ok: bool)
    | DeviceLeaves(id: nat, w: World)
    | CommandArrives(c: nat, cmd: Command, w: World)
    | ClientHangsUp(c: nat, w: World)
    | ClientDrains(c: nat, n: int, w: World)
    | ClientServed(c: nat, ev: Mask, wrote: int, got: Got, ok: bool, now: nat, w: World)
    | SegmentArrives(id: nat, s: Segment, ok: bool, now: nat, w: World)
    | ClockTicks(ct: nat, oks: set<nat>, clock: Clock, w: World)

  /** What is in a command: the scan order of the device table, the codes of an incomplete Connect. */
  predicate Sensible(d: State, cmd: Command) {
    match cmd.op
    case ListenOp(order) => Enumerates(order, Visible(d.devices))
    case ConnectBad(code) => code in {RESULT_BADDEV, RESULT_BADCOMMAND}
    case _ => true
  }

  /** A Connect the daemon acts on too early; `EarlyConnects` says what it breaks. */
  predicate Early(d: State, c: nat, cmd: Command) {
    && c in d.clients && d.clients[c].state == Commanding && (cmd.version == 0 || cmd.version == 1)
    && cmd.op.ConnectOp? && EarlyConnect(d, cmd.op.dev, cmd.op.synOk)
  }

  /** The event can happen: sockets are only touched in ways their poll mask allows. */
  predicate Enabled(d: State, e: Event) {
    match e
    case DeviceArrives(usb, _) => forall i :: i in d.devices ==> d.devices[i].usb != usb
    case CommandArrives(c, cmd, _) => c in d.clients && d.clients[c].state != Streaming && d.clients[c].events.rd
        && Sensible(d, cmd) && !Early(d, c, cmd)
    case ClientHangsUp(c, _) => c in d.clients && d.clients[c].state != Streaming && d.clients[c].events.rd
    case ClientDrains(c, _, _) => c in d.clients && d.clients[c].state != Streaming && d.clients[c].events.wr
    case ClientServed(c, _, _, _, _, _, _) => c in d.clients && d.clients[c].state == Streaming
    case SegmentArrives(id, _, _, _, _) => id in d.devices && d.devices[id].state == Active
    case _ => true
  }

  /** The connection a segment belongs to, and its client. */
  ghost predicate Addressed(d: State, id: nat, s: Segment, k: nat, c: nat) {
    k in Matches(d, id, s) && d.conns[k].client == Some(c) && c in d.clients && d.conns[k].tcp.txWin < U16 * 256
  }

  /** The reset `device_tcp_input` sends for a segment nobody owns. */
  function Disowned(d: State, id: nat, s: Segment, ok: bool): State {
    if RST in s.flags || !ok then d
    else d.(strays := d.strays + [AnonymousReset(id, Segment(s.dport, s.sport, 0, s.seqno, {RST}, 0, []))])
  }

  ghost function Step(d: State, e: Event): State {
    if !Enabled(d, e) then d else
    match e
    case Accept => d.(clients := d.clients[d.nextClient := Fresh()], nextClient := d.nextClient + 1)
    case DeviceArrives(usb, ok) => Attach(d, usb, ok)
    case VersionArrives(id, major, ok) => Version(d, id, major, ok)
    case DeviceLeaves(id, w) => Detach(d, id, w)
    case CommandArrives(c, cmd, w) => Handle(d, c, cmd, w)
    case ClientHangsUp(c, w) => Close(d, c, w)
    case ClientDrains(c, n, w) => Drain(d, c, n, w)
    case ClientServed(c, ev, wrote, got, ok, now, w) =>
      var link := d.clients[c].link;
      if link.Some? && link.value in d.conns && d.conns[link.value].tcp.txWin < U16 * 256
      then TurnOf(d, link.value, c, ev, wrote, got, ok, now, w) else d
    case SegmentArrives(id, s, ok, now, w) =>
      if exists k, c :: Addressed(d, id, s, k, c) then
        var k, c :| Addressed(d, id, s, k, c);
        SegmentTo(d, k, c, s, ok, now, w)
      else Disowned(d, id, s, ok)
    case ClockTicks(ct, oks, clock, w) => Timeouts(d, ct, oks, clock, w)
  }

  /** What a step is, event by event. */
  lemma StepOf(d: State, e: Event)
    requires Enabled(d, e)
    ensures e.CommandArrives? ==> Step(d, e) == Handle(d, e.c, e.cmd, e.w)
    ensures e.ClientHangsUp? ==> Step(d, e) == Close(d, e.c, e.w)
    ensures e.ClientDrains? ==> Step(d, e) == Drain(d, e.c, e.n, e.w)
    ensures e.ClockTicks? ==> Step(d, e) == Timeouts(d, e.ct, e.oks, e.clock, e.w)
    ensures e.DeviceArrives? ==> Step(d, e) == Attach(d, e.usb, e.ok)
    ensures e.VersionArrives? ==> Step(d, e) == Version(d, e.id, e.major, e.ok)
    ensures e.DeviceLeaves? ==> Step(d, e) == Detach(d, e.id, e.w)
    ensures e.Accept? ==> Step(d, e) == d.(clients := d.clients[d.nextClient := Fresh()],
        nextClient := d.nextClient + 1)
  {
    hide Handle, Close, Drain, Timeouts, Attach, Version, Detach, TurnOf, SegmentTo, Enabled;
  }

  lemma StepDisabled(d: State, e: Event)
    requires !Enabled(d, e)
    ensures Step(d, e) == d
  {
    hide Enabled;
  }

  /** A segment that somebody owns. */
  lemma StepTo(d: State, e: Event) returns (k: nat, c: nat)
    requires e.SegmentArrives? && Enabled(d, e) && exists k, c :: Addressed(d, e.id, e.s, k, c)
    ensures Addressed(d, e.id, e.s, k, c) && Step(d, e) == SegmentTo(d, k, c, e.s, e.ok, e.now, e.w)
  {
    hide SegmentTo, Enabled;
    k, c :| Addressed(d, e.id, e.s, k, c) && Step(d, e) == SegmentTo(d, k, c, e.s, e.ok, e.now, e.w);
  }

  /** One that nobody owns. */
  lemma StepUnowned(d: State, e: Event)
    requires e.SegmentArrives? && Enabled(d, e) && !exists k, c :: Addressed(d, e.id, e.s, k, c)
    ensures Step(d, e) == d.(strays := Disowned(d, e.id, e.s, e.ok).strays)
  {
    hide SegmentTo, Enabled;
  }

  // ---------------------------------------------------------------- every step

  /** Only clients that are not being served may be read for commands. */
  lemma ReadableStates(cl: Client, tcp: Option<Conn>)
    requires Polled(cl, tcp) && Coupled(cl.state, tcp) && cl.state != Streaming && cl.events.rd
    ensures cl.state in {Commanding, Listening, Connecting1}
  {
  }

  lemma {:induction false} BadCommandKeeps(d: State, c: nat, tag: u32, w: World)
    requires Inv(d) && c in d.clients && d.clients[c].state in {Listening, Connecting1}
    ensures Inv(Close(d.(clients := d.clients[c := Queue(d.render, d.clients[c], tag, Reply(RESULT_BADCOMMAND))]), c,
        w))
  {
    hide Core, Polled, Closed, Resting, DevicesOk, PortsOk, SkyOf, Links, Agree, AllResting, Archived, Queue, Close;
    SeatFacts(d, c);
    var cl := d.clients[c];
    RepliedSeat(d.render, cl, Linked(d.conns, cl), SkyOf(d.devices, d.nextDevice), tag, RESULT_BADCOMMAND);
    QueueLink(d.render, cl, tag, Reply(RESULT_BADCOMMAND));
    var cl' := Queue(d.render, cl, tag, Reply(RESULT_BADCOMMAND));
    ReseatKeeps(d, c, cl', Doomed(cl'));
    CloseKeeps(d.(clients := d.clients[c := cl']), c, w);
  }

  /** The commands that are answered at once. */
  lemma {:induction false} ReplyKeeps(d: State, c: nat, tag: u32, code: nat)
    requires Inv(d) && c in d.clients && d.clients[c].state == Commanding
    ensures Inv(d.(clients := d.clients[c := Queue(d.render, d.clients[c], tag, Reply(code))]))
  {
    hide Core, Polled, Closed, Resting, DevicesOk, PortsOk, SkyOf, Links, Agree, AllResting, Archived, Queue;
    SeatFacts(d, c);
    var cl := d.clients[c];
    RepliedSeat(d.render, cl, Linked(d.conns, cl), SkyOf(d.devices, d.nextDevice), tag, code);
    QueueLink(d.render, cl, tag, Reply(code));
    ReseatKeeps(d, c, Queue(d.render, cl, tag, Reply(code)), {});
  }

  lemma {:induction false} PlistKeeps(d: State, c: nat)
    requires Inv(d) && c in d.clients && d.clients[c].state == Commanding
    ensures Inv(d.(clients := d.clients[c := d.clients[c].(version := 1)]))
  {
    var cl := d.clients[c];
    SeatFacts(d, c);
    VersionSeat(d.render, cl, Linked(d.conns, cl), SkyOf(d.devices, d.nextDevice));
    ReseatKeeps(d, c, cl.(version := 1), {});
  }

  lemma VersionSeat(render: Render, cl: Client, tcp: Option<Conn>, sky: Sky)
    requires Core(render, cl, tcp, sky) && Polled(cl, tcp)
    ensures Core(render, cl.(version := 1), tcp, sky) && Polled(cl.(version := 1), tcp)
  {
  }

  lemma SkyFacts(d: State)
    requires DevicesOk(d.devices, d.nextDevice)
    ensures var sky := SkyOf(d.devices, d.nextDevice);
            && sky.visible == Visible(d.devices) && sky.visible !! sky.pending
            && forall i :: i in sky.visible ==> i < sky.bound
  {
  }

  lemma {:induction false} ListenKeeps(d: State, c: nat, tag: u32, order: seq<nat>)
    requires Inv(d) && c in d.clients && d.clients[c].state == Commanding && Enumerates(order, Visible(d.devices))
    ensures var cl := Queue(d.render, d.clients[c], tag, Reply(RESULT_OK)).(state := Listening);
            Inv(d.(clients := d.clients[c := QueueAttached(d.render, cl, order)]))
  {
    SkyFacts(d);
    hide Core, Polled, Closed, Resting, DevicesOk, PortsOk, SkyOf, Links, Agree, AllResting, Archived, Queue,
        QueueAttached;
    SeatFacts(d, c);
    CommandingUnlinked(d, c);
    var cl := Queue(d.render, d.clients[c], tag, Reply(RESULT_OK)).(state := Listening);
    ListeningSeat(d.render, d.clients[c], SkyOf(d.devices, d.nextDevice), tag, order);
    ReseatKeeps(d, c, QueueAttached(d.render, cl, order), {});
  }

  lemma {:induction false} ConnectBadKeeps(d: State, c: nat, tag: u32, code: nat)
    requires Inv(d) && c in d.clients && d.clients[c].state == Commanding && code != RESULT_OK
    ensures var cl := d.clients[c].(asked := d.clients[c].asked + [tag]);
            Inv(d.(clients := d.clients[c := Queue(d.render, cl, tag, ConnectReply(code))]))
  {
    hide Core, Polled, Closed, Resting, DevicesOk, PortsOk, SkyOf, Links, Agree, AllResting, Archived, Queue;
    SeatFacts(d, c);
    CommandingUnlinked(d, c);
    var cl := d.clients[c].(asked := d.clients[c].asked + [tag]);
    RefusedSeat(d.render, d.clients[c], SkyOf(d.devices, d.nextDevice), tag, code);
    QueueLink(d.render, cl, tag, ConnectReply(code));
    ReseatKeeps(d, c, Queue(d.render, cl, tag, ConnectReply(code)), {});
  }

  /** News of a pairing goes to the listeners before the client has its reply. */
  lemma {:induction false} SavedKeeps(d: State, c: nat, tag: u32, dev: nat, known: bool)
    requires Inv(d) && c in d.clients && d.clients[c].state == Commanding
    ensures var news := known && dev in d.devices && d.devices[dev].state == Active;
            var all := if news then Broadcast(d.render, d.clients, NowPaired(dev)) else d.clients;
            Inv(d.(clients := all[c := Queue(d.render, all[c], tag, Reply(RESULT_OK))]))
  {
    hide InvBut, Queue;
    if known && dev in d.devices && d.devices[dev].state == Active {
      PairedKeeps(d, dev);
      ReplyKeeps(d.(clients := Broadcast(d.render, d.clients, NowPaired(dev))), c, tag, RESULT_OK);
    } else {
      ReplyKeeps(d, c, tag, RESULT_OK);
    }
  }

  lemma {:induction false} ObeyKeeps(d: State, c: nat, cmd: Command)
    requires Inv(d) && c in d.clients && d.clients[c].state == Commanding && Sensible(d, cmd)
    requires cmd.op.ConnectOp? ==> !EarlyConnect(d, cmd.op.dev, cmd.op.synOk)
    ensures Inv(Obey(d, c, cmd))
  {
    hide InvBut, Queue, QueueAttached, Connect;
    var cl := if cmd.plist then d.clients[c].(version := 1) else d.clients[c];
    var d1 := d.(clients := d.clients[c := cl]);
    if cmd.plist {
      PlistKeeps(d, c);
    } else {
      assert d1 == d;
    }
    match cmd.op
    case ListenOp(order) => ListenKeeps(d1, c, cmd.tag, order);
    case ConnectOp(dev, port, synOk, now) => ConnectKeeps(d1, c, cmd.tag, dev, port, synOk, now);
    case ConnectBad(code) => ConnectBadKeeps(d1, c, cmd.tag, code);
    case SavedOp(dev, known) => SavedKeeps(d1, c, cmd.tag, dev, known);
    case OtherOp(code) => ReplyKeeps(d1, c, cmd.tag, code);
    case Unreadable =>
  }

  lemma {:induction false} HandleKeeps(d: State, c: nat, cmd: Command, w: World)
    requires Inv(d) && c in d.clients && d.clients[c].state in {Commanding, Listening, Connecting1} && Sensible(d, cmd)
    requires !Early(d, c, cmd)
    ensures Inv(Handle(d, c, cmd, w))
  {
    hide InvBut, Queue, Obey, Close;
    if d.clients[c].state != Commanding {
      BadCommandKeeps(d, c, cmd.tag, w);
    } else if cmd.version != 0 && cmd.version != 1 {
      if cmd.op.ConnectOp? || cmd.op.ConnectBad? {
        ConnectBadKeeps(d, c, cmd.tag, RESULT_BADVERSION);
      } else {
        ReplyKeeps(d, c, cmd.tag, RESULT_BADVERSION);
      }
    } else {
      ObeyKeeps(d, c, cmd);
    }
  }

  lemma {:induction false} SegmentArrivesKeeps(d: State, e: Event)
    requires Inv(d) && e.SegmentArrives?
    ensures Inv(Step(d, e))
  {
    hide InvBut, SegmentTo;
    if Enabled(d, e) {
      if exists k, c :: Addressed(d, e.id, e.s, k, c) {
        var k, c :| Addressed(d, e.id, e.s, k, c) && Step(d, e) == SegmentTo(d, k, c, e.s, e.ok, e.now, e.w);
        SegmentToKeeps(d, k, c, e.s, e.ok, e.now, e.w);
      } else if Disowned(d, e.id, e.s, e.ok) != d {
        StrayKeeps(d, Disowned(d, e.id, e.s, e.ok).strays);
      }
    }
  }

  lemma {:induction false} ServedKeeps(d: State, e: Event)
    requires Inv(d) && e.ClientServed?
    ensures Inv(Step(d, e))
  {
    if Enabled(d, e) {
      assert SeatOk(d, e.c);
      var link := d.clients[e.c].link;
      if link.Some? && link.value in d.conns && d.conns[link.value].tcp.txWin < U16 * 256 {
        TurnOfKeeps(d, link.value, e.c, e.ev, e.wrote, e.got, e.ok, e.now, e.w);
      }
    }
  }

  lemma {:induction false} CommandKeeps(d: State, e: Event)
    requires Inv(d) && e.CommandArrives?
    ensures Inv(Step(d, e))
  {
    if Enabled(d, e) {
      SeatFacts(d, e.c);
      ReadableStates(d.clients[e.c], Linked(d.conns, d.clients[e.c]));
      HandleKeeps(d, e.c, e.cmd, e.w);
    }
  }

  /** Every step of the daemon keeps its invariant. */
  lemma {:induction false} StepKeeps(d: State, e: Event)
    requires Inv(d)
    ensures Inv(Step(d, e))
  {
    hide InvBut, Handle, TurnOf, SegmentTo, Timeouts, Detach, Version, Attach, Drain, Close;
    if Enabled(d, e) {
      match e
      case Accept => AcceptKeeps(d);
      case DeviceArrives(usb, ok) => AttachKeeps(d, usb, ok);
      case VersionArrives(id, major, ok) => VersionKeeps(d, id, major, ok);
      case DeviceLeaves(id, w) => DetachKeeps(d, id, w);
      case CommandArrives(c, cmd, w) => CommandKeeps(d, e);
      case ClientHangsUp(c, w) => HangUpKeeps(d, c, w);
      case ClientDrains(c, n, w) => DrainKeeps(d, c, n, w);
      case ClientServed(c, ev, wrote, got, ok, now, w) => ServedKeeps(d, e);
      case SegmentArrives(id, s, ok, now, w) => SegmentArrivesKeeps(d, e);
      case ClockTicks(ct, oks, clock, w) => TimeoutsKeeps(d, ct, oks, clock, w);
    }
  }

  ghost function Run(d: State, es: seq<Event>): State
    decreases |es|
  {
    if es == [] then d else Run(Step(d, es[0]), es[1..])
  }

  lemma {:induction false} RunKeeps(d: State, es: seq<Event>)
    requires Inv(d)
    ensures Inv(Run(d, es))
    decreases |es|
  {
    hide InvBut, Step;
    if es != [] {
      StepKeeps(d, es[0]);
      RunKeeps(Step(d, es[0]), es[1..]);
    }
  }
}
