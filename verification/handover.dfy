/**
  What a client sees: the control stream of `Daemon` laid out as messages of the usbmuxd protocol,
  and the point where device payload begins.
 */
module Handover {
  import opened Words
  import opened Transport
  import opened Messages
  import opened Daemon
  import opened DaemonRuns
  import opened DaemonInv
  import opened DaemonTheorems
  import opened History

  const MESSAGE_RESULT: u32 := 1
  const MESSAGE_DEVICE_ADD: u32 := 4
  const MESSAGE_DEVICE_REMOVE: u32 := 5
  const MESSAGE_DEVICE_PAIRED: u32 := 6
  const MESSAGE_PLIST: u32 := 8

  /** The payloads this model does not look into: plists, and the device record of an attach message. */
  type Form = f: Notice -> seq<byte> | forall n :: |f(n)| < U32 - HEADER_SIZE witness _ => []

  function Kind(n: Notice): u32 {
    if n.version == 1 then MESSAGE_PLIST else
    match n.note
    case ConnectReply(_) => MESSAGE_RESULT
    case Reply(_) => MESSAGE_RESULT
    case Attached(_) => MESSAGE_DEVICE_ADD
    case Detached(_) => MESSAGE_DEVICE_REMOVE
    case NowPaired(_) => MESSAGE_DEVICE_PAIRED
  }

  function Payload(form: Form, n: Notice): seq<byte> {
    if n.version == 1 then form(n) else
    match n.note
    case ConnectReply(code) => Le32(code % U32)
    case Reply(code) => Le32(code % U32)
    case Attached(_) => form(n)
    case Detached(id) => Le32(id % U32)
    case NowPaired(id) => Le32(id % U32)
  }

  function MessageOf(form: Form, n: Notice): Message {
    Message(n.version, Kind(n), n.tag, Payload(form, n))
  }

  /** The layout of `send_result`, `send_device_add` and `send_device_remove`. */
  function Protocol(form: Form): Render {
    var r: Notice -> seq<byte> := n => Encode(MessageOf(form, n));
    r
  }

  function MessagesOf(form: Form, q: seq<Notice>): (ms: seq<Message>)
    ensures |ms| == |q| && forall i :: 0 <= i < |q| ==> ms[i] == MessageOf(form, q[i])
  {
    seq(|q|, i requires 0 <= i < |q| => MessageOf(form, q[i]))
  }

  lemma {:induction false} ControlEncodes(form: Form, q: seq<Notice>)
    ensures Control(Protocol(form), q) == EncodeAll(MessagesOf(form, q))
    ensures AllSized(MessagesOf(form, q))
  {
    hide Encode;
    if q != [] {
      ControlEncodes(form, q[..|q| - 1]);
      var ms := MessagesOf(form, q);
      assert ms[..|ms| - 1] == MessagesOf(form, q[..|q| - 1]);
      assert Protocol(form)(q[|q| - 1]) == Encode(ms[|ms| - 1]);
    }
  }

  /**
    In every reachable state, a client that reads messages off its socket gets the messages queued
    for it, in order and unchanged. Once it has them all, the last of which grants its Connect when
    payload follows, the bytes behind them are a prefix of what the device sent on its connection,
    and not a byte of that prefix was mistaken for a message or the other way round.
   */
  lemma ClientReads(d: State, c: nat, form: Form)
    requires Reachable(d) && d.render == Protocol(form) && (c in d.clients || c in d.departed)
    ensures var cl := Record(d, c);
            var ms := MessagesOf(form, cl.queued);
            var (got, rest) := ReadOff(cl.sent, |ms|);
            && got <= ms
            && (got != ms ==> cl.delivered == [] && |rest| < |Encode(ms[|got|])|)
            && (got == ms ==> rest == cl.delivered && rest <= cl.fromDevice)
            && (cl.delivered != [] ==> got == ms && LastGrants(cl.queued, cl.connectTag))
  {
    hide Encode, Reachable, ReadOff;
    HandOver(d, c);
    var cl := Record(d, c);
    var ms := MessagesOf(form, cl.queued);
    ControlEncodes(form, cl.queued);
    if cl.sent == EncodeAll(ms) + cl.delivered {
      ReadOffAll(ms, cl.delivered);
    } else {
      ReadOffPrefix(ms, cl.sent);
    }
  }

  /** Behind the messages of a run come payloads that the device sent on the client's connection, and nothing else. */
  lemma {:induction false} ClientReadsPayload(form: Form, es: seq<Event>, c: nat)
    ensures var d := Run(Boot(Protocol(form)), es);
            c in d.clients || c in d.departed ==>
              var ms := MessagesOf(form, Record(d, c).queued);
              var (got, rest) := ReadOff(Record(d, c).sent, |ms|);
              got <= ms && (got == ms ==> rest <= Payloads(Boot(Protocol(form)), es, c))
  {
    hide Encode, ReadOff, Run, Step, Payloads;
    var d := Run(Boot(Protocol(form)), es);
    assert Reachable(d);
    if c in d.clients || c in d.departed {
      RunRender(Boot(Protocol(form)), es);
      hide Reachable;
      ClientReads(d, c, form);
      DeliveredIsPayload(Protocol(form), es, c);
    }
  }

  /** The layout of messages never changes. */
  lemma HandleRender(d: State, c: nat, cmd: Command, w: World)
    requires c in d.clients
    ensures Handle(d, c, cmd, w).render == d.render
  {
    hide LoggedAll, Resets, Queue, QueueAttached, Broadcast, On, PortsOn, Opening, AfterSend, Outgoing, Logged;
  }

  lemma TrafficRender(d: State, k: nat, c: nat, s: Segment, ev: Mask, wrote: int, got: Got, ok: bool, now: nat,
                      w: World)
    requires k in d.conns && c in d.clients && d.conns[k].tcp.txWin < U16 * 256
    ensures SegmentTo(d, k, c, s, ok, now, w).render == d.render
    ensures TurnOf(d, k, c, ev, wrote, got, ok, now, w).render == d.render
  {
    hide LoggedAll, Resets, Stayers, Leavers, Logged, SegmentIn, ClientTurn, Notified, SetEvents, Accepted;
  }

  lemma DeviceRender(d: State, id: nat, w: World, ct: nat, oks: set<nat>, clock: Clock)
    ensures Detach(d, id, w).render == d.render && Timeouts(d, ct, oks, clock, w).render == d.render
  {
    hide LoggedAll, Resets, Stayers, Leavers, Broadcast, Acked, AckedClient, On, Due;
  }

  lemma {:induction false} StepRender(d: State, e: Event)
    ensures Step(d, e).render == d.render
  {
    hide Handle, SegmentTo, TurnOf, Detach, Timeouts;
    if Enabled(d, e) {
      match e {
        case CommandArrives(c, cmd, w) => HandleRender(d, c, cmd, w);
        case DeviceLeaves(id, w) => DeviceRender(d, id, w, 0, {}, map[]);
        case ClockTicks(ct, oks, clock, w) => DeviceRender(d, 0, w, ct, oks, clock);
        case ClientServed(c, ev, wrote, got, ok, now, w) =>
          var link := d.clients[c].link;
          if link.Some? && link.value in d.conns && d.conns[link.value].tcp.txWin < U16 * 256 {
            TrafficRender(d, link.value, c, Segment(0, 0, 0, 0, {}, 0, []), ev, wrote, got, ok, now, w);
          }
        case SegmentArrives(id, s, ok, now, w) =>
          if exists k, c :: Addressed(d, id, s, k, c) {
            var k, c := StepTo(d, e);
            TrafficRender(d, k, c, s, Mask(false, false), 0, ReadFailed, ok, now, w);
          }
        case _ =>
      }
    }
  }

  lemma {:induction false} RunRender(d: State, es: seq<Event>)
    ensures Run(d, es).render == d.render
    decreases |es|
  {
    hide Step;
    if es != [] {
      StepRender(d, es[0]);
      RunRender(Step(d, es[0]), es[1..]);
    }
  }
}
