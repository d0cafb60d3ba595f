/**
  A Connect to a device that has not answered the version request. `device_start_connect` does not ask
  for the state of the device, and `device_remove` tears down the connections of active devices only.
  This module says what goes wrong, and that nothing else does.
 */
module EarlyConnects {
  import opened Words
  import opened Transport
  import opened Daemon
  import opened DaemonInv
  import opened DaemonSteps
  import opened DaemonRuns
  import opened DaemonTheorems
  import Ports

  /** Connection `k` of a waiting client is on a device that is not there. */
  ghost predicate Dangling(d: State, c: nat, k: nat) {
    && c in d.clients && d.clients[c].state == Connecting1 && d.clients[c].link == Some(k)
    && k in d.conns && d.conns[k].dev !in d.devices
  }

  /** The early connection itself. */
  lemma EarlyOpens(d: State, c: nat, tag: u32, dev: nat, port: u16, now: nat)
    requires c in d.clients && EarlyConnect(d, dev, true)
    ensures var d' := Connect(d, c, tag, dev, port, true, now);
            && d.nextConn in d'.conns && d'.conns[d.nextConn].dev == dev && c in d'.clients
            && d'.clients[c].state == Connecting1 && d'.clients[c].link == Some(d.nextConn)
            && dev in d'.devices && d'.devices[dev].state == d.devices[dev].state
  {
    hide PortsOn, On, Opening, AfterSend, Outgoing, Logged;
  }

  /** A Connect keeps the invariant exactly when it is not early. */
  lemma {:induction false} ConnectExact(d: State, c: nat, tag: u32, dev: nat, port: u16, synOk: bool, now: nat)
    requires Inv(d) && c in d.clients && d.clients[c].state == Commanding
    ensures Inv(Connect(d, c, tag, dev, port, synOk, now)) <==> !EarlyConnect(d, dev, synOk)
  {
    if EarlyConnect(d, dev, synOk) {
      EarlyOpens(d, c, tag, dev, port, now);
      InactiveBreaks(Connect(d, c, tag, dev, port, synOk, now), d.nextConn);
    } else {
      ConnectKeeps(d, c, tag, dev, port, synOk, now);
    }
  }

  lemma InactiveBreaks(d: State, k: nat)
    requires k in d.conns && (d.conns[k].dev in d.devices ==> d.devices[d.conns[k].dev].state != Active)
    ensures !Inv(d)
  {
    assert !EntryOk(d, k);
  }

  /** When the device then leaves, or gives an unknown version, nothing ends the connection. */
  lemma {:induction false} EarlyDangles(d: State, c: nat, tag: u32, dev: nat, port: u16, now: nat, w: World,
                                        major: nat, ok: bool)
    requires c in d.clients && EarlyConnect(d, dev, true) && d.devices[dev].state == Init && major != 1 && major != 2
    ensures Dangling(Detach(Connect(d, c, tag, dev, port, true, now), dev, w), c, d.nextConn)
    ensures Dangling(Version(Connect(d, c, tag, dev, port, true, now), dev, major, ok), c, d.nextConn)
  {
    EarlyOpens(d, c, tag, dev, port, now);
    hide Connect;
  }

  // ---------------------------------------------------------------- runs

  ghost predicate Hasty(d: State, e: Event) {
    e.CommandArrives? && e.c in d.clients && d.clients[e.c].events.rd && Early(d, e.c, e.cmd)
  }

  /** A step of the daemon, early Connects included. */
  ghost function FreeStep(d: State, e: Event): State {
    if Hasty(d, e) then Handle(d, e.c, e.cmd, e.w) else Step(d, e)
  }

  ghost function FreeRun(d: State, es: seq<Event>): State {
    if es == [] then d else FreeStep(FreeRun(d, es[..|es| - 1]), es[|es| - 1])
  }

  /** The run comes to no early Connect. */
  ghost predicate Patient(d: State, es: seq<Event>) {
    es == [] || (Patient(d, es[..|es| - 1]) && !Hasty(FreeRun(d, es[..|es| - 1]), es[|es| - 1]))
  }

  /** The invariant holds all along. */
  ghost predicate Sound(d: State, es: seq<Event>) {
    Inv(FreeRun(d, es)) && (es == [] || Sound(d, es[..|es| - 1]))
  }

  /** Every connection is on an active device. */
  ghost predicate OnActive(d: State) {
    forall k :: k in d.conns ==> d.conns[k].dev in d.devices && d.devices[d.conns[k].dev].state == Active
  }

  ghost predicate Anchored(d: State, es: seq<Event>) {
    OnActive(FreeRun(d, es)) && (es == [] || Anchored(d, es[..|es| - 1]))
  }

  lemma InvAnchors(d: State)
    requires Inv(d)
    ensures OnActive(d)
  {
    assert forall k :: k in d.conns ==> EntryOk(d, k);
  }

  lemma {:induction false} HastyBreaks(d: State, e: Event)
    requires Hasty(d, e)
    ensures !Inv(FreeStep(d, e)) && !OnActive(FreeStep(d, e))
  {
    HastyConnects(d, e);
    hide InvBut, Connect;
    var op := e.cmd.op;
    var cl := if e.cmd.plist then d.clients[e.c].(version := 1) else d.clients[e.c];
    var d1 := d.(clients := d.clients[e.c := cl]);
    EarlyOpens(d1, e.c, e.cmd.tag, op.dev, op.port, op.now);
    InactiveBreaks(FreeStep(d, e), d.nextConn);
  }

  lemma HastyConnects(d: State, e: Event)
    requires Hasty(d, e)
    ensures var cl := if e.cmd.plist then d.clients[e.c].(version := 1) else d.clients[e.c];
            var d1, op := d.(clients := d.clients[e.c := cl]), e.cmd.op;
            && EarlyConnect(d1, op.dev, true)
            && FreeStep(d, e) == Connect(d1, e.c, e.cmd.tag, op.dev, op.port, true, op.now)
  {
    hide Connect, Step;
    var cl := if e.cmd.plist then d.clients[e.c].(version := 1) else d.clients[e.c];
    var d1 := d.(clients := d.clients[e.c := cl]);
    assert On(d1, e.cmd.op.dev) == On(d, e.cmd.op.dev) && PortsOn(d1, e.cmd.op.dev) == PortsOn(d, e.cmd.op.dev);
  }

  /**
    Exactly when the daemon keeps its invariant, and with it everything in `DaemonTheorems`: in a run
    from a state in which it holds, it holds all along if and only if no Connect is early.
   */
  lemma {:induction false} SoundExactly(d: State, es: seq<Event>)
    requires Inv(d)
    ensures Sound(d, es) <==> Patient(d, es)
  {
    hide InvBut, Hasty, FreeStep;
    if es != [] {
      var before, e := FreeRun(d, es[..|es| - 1]), es[|es| - 1];
      SoundExactly(d, es[..|es| - 1]);
      if Sound(d, es[..|es| - 1]) {
        SoundNow(d, es[..|es| - 1]);
        if Hasty(before, e) {
          HastyBreaks(before, e);
        } else {
          PatientStep(before, e);
        }
      }
    }
  }

  /** Nor is every connection on an active device all along, unless no Connect is early. */
  lemma {:induction false} AnchoredExactly(d: State, es: seq<Event>)
    requires Inv(d)
    ensures Anchored(d, es) <==> Patient(d, es)
  {
    hide InvBut, Hasty, FreeStep, OnActive;
    SoundExactly(d, es);
    if es != [] {
      var before, e := FreeRun(d, es[..|es| - 1]), es[|es| - 1];
      AnchoredExactly(d, es[..|es| - 1]);
      if Hasty(before, e) {
        HastyBreaks(before, e);
      }
    }
    if Sound(d, es) {
      SoundNow(d, es);
      InvAnchors(FreeRun(d, es));
    }
  }

  /** The runs of the other modules are those: every theorem about reachable states holds of patient runs. */
  lemma {:induction false} PatientReachable(render: Render, es: seq<Event>)
    requires Patient(Boot(render), es)
    ensures Reachable(FreeRun(Boot(render), es))
  {
    hide Hasty;
    if es == [] {
      assert Boot(render) == Run(Boot(render), []);
    } else {
      PatientReachable(render, es[..|es| - 1]);
      ReachableStep(FreeRun(Boot(render), es[..|es| - 1]), es[|es| - 1]);
    }
  }

  lemma SoundNow(d: State, es: seq<Event>)
    requires Sound(d, es)
    ensures Inv(FreeRun(d, es))
  {
  }

  lemma PatientStep(d: State, e: Event)
    requires Inv(d) && !Hasty(d, e)
    ensures Inv(FreeStep(d, e))
  {
    hide InvBut, Step;
    StepKeeps(d, e);
  }

  /** The smallest run that dangles: a client, a device, an early Connect, and the device leaves. */
  lemma {:induction false} DanglingRun(render: Render, port: u16, now: nat, w: World)
    ensures var d := Run(Boot(render), [Accept, DeviceArrives(0, true)]);
            var e := CommandArrives(0, Command(0, false, 0, ConnectOp(1, port, true, now)), w);
            && Hasty(d, e) && Dangling(Detach(FreeStep(d, e), 1, w), 0, 0)
  {
    var d0 := Boot(render);
    var d1 := Step(d0, Accept);
    var d2 := Step(d1, DeviceArrives(0, true));
    assert [Accept, DeviceArrives(0, true)][1..] == [DeviceArrives(0, true)];
    assert Run(d0, [Accept, DeviceArrives(0, true)]) == d2;
    var e := CommandArrives(0, Command(0, false, 0, ConnectOp(1, port, true, now)), w);
    assert d2.devices[1] == Device(0, Init, false, 1, 0) && d2.clients[0] == Fresh() && d2.conns == map[];
    assert PortsOn(d2, 1) == {} && On(d2, 1) == {};
    assert Hasty(d2, e);
    HastyConnects(d2, e);
    hide Connect, Step, Run, Detach;
    assert d2.clients[0 := d2.clients[0]] == d2.clients;
    EarlyDangles(d2, 0, 0, 1, port, now, w, 0, false);
  }
}
