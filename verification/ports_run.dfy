/**
  The failure of `find_sport` in a run of the daemon: ports are used up by connections that never
  come up, since the counter moves on whether or not the SYN can be sent.
 */
module PortsRun {
  import opened Words
  import opened Transport
  import opened Daemon
  import opened DaemonInv
  import opened DaemonSteps
  import opened DaemonRuns
  import opened DaemonTheorems
  import Ports

  /** One client that may issue commands, one active device, no connection; the counter shows `next`. */
  ghost predicate Idle(d: State, next: u16) {
    && d.conns == map[]
    && 0 in d.clients && d.clients[0].state == Commanding && d.clients[0].events.rd
    && 1 in d.devices && d.devices[1].state == Active && d.devices[1].nextSport == next
  }

  /** A Connect of that client to that device. */
  function Attempt(port: u16, synOk: bool, now: nat): Event {
    CommandArrives(0, Command(0, false, 0, ConnectOp(1, port, synOk, now)), World({}, map[]))
  }

  lemma AttemptIs(d: State, next: u16, port: u16, synOk: bool, now: nat)
    requires Idle(d, next)
    ensures Step(d, Attempt(port, synOk, now)) == Connect(d, 0, 0, 1, port, synOk, now)
  {
    hide Connect;
    assert d.clients[0 := d.clients[0]] == d.clients;
  }

  lemma NoPortsInUse(d: State, next: u16)
    requires Idle(d, next)
    ensures PortsOn(d, 1) == {} && On(d, 1) == {}
  {
  }

  /** A Connect whose SYN cannot be sent leaves everything as it was, but moves the counter on. */
  lemma {:induction false} RefusedMovesOn(d: State, next: u16)
    requires Idle(d, next) && next != 0
    ensures Idle(Step(d, Attempt(0, false, 0)), (next + 1) % U16)
  {
    AttemptIs(d, next, 0, false, 0);
    NoPortsInUse(d, next);
    hide Step, PortsOn, On;
    assert |On(d, 1)| == 0;
    assert Ports.SourcePort({}, 0, next) == next && Ports.NextPort({}, 0, next) == (next + 1) % U16;
  }

  /** The client comes, the device comes and says its version. */
  lemma {:induction false} Beginning(render: Render) returns (d: State)
    ensures Reachable(d) && Idle(d, 1)
  {
    var d0 := Boot(render);
    assert d0 == Run(d0, []);
    var d1 := Step(d0, Accept);
    var d2 := Step(d1, DeviceArrives(0, true));
    d := Step(d2, VersionArrives(1, 1, true));
    ReachableStep(d0, Accept);
    ReachableStep(d1, DeviceArrives(0, true));
    ReachableStep(d2, VersionArrives(1, 1, true));
    assert d1.clients[0] == Fresh() && d2.devices[1] == Device(0, Init, false, 1, 0);
  }

  lemma {:induction false} Attempts(render: Render, n: nat) returns (d: State)
    requires n <= 65535
    ensures Reachable(d) && Idle(d, (1 + n) % U16)
  {
    hide Step, Reachable;
    if n == 0 {
      d := Beginning(render);
    } else {
      var before := Attempts(render, n - 1);
      RefusedMovesOn(before, n);
      ReachableStep(before, Attempt(0, false, 0));
      d := Step(before, Attempt(0, false, 0));
    }
  }

  /** With no connection open, a Connect is refused: the reply is RESULT_BADDEV. */
  lemma {:induction false} RefusedWithAllFree(d: State, port: u16, synOk: bool, now: nat)
    requires Idle(d, 0)
    ensures var d' := Step(d, Attempt(port, synOk, now));
            && d'.conns == map[] && PortsOn(d, 1) == {}
            && d'.clients[0].queued == d.clients[0].queued +
                [Notice(d.clients[0].version, 0, ConnectReply(RESULT_BADDEV))]
            && d'.devices[1].nextSport == 1
  {
    AttemptIs(d, 0, port, synOk, now);
    NoPortsInUse(d, 0);
    hide Step, PortsOn, On;
    assert |On(d, 1)| == 0;
    assert Ports.SourcePort({}, 0, 0) == 0 && Ports.NextPort({}, 0, 0) == 1;
  }

  /**
    That allocation succeeds while ports are free is false of the daemon: 65535 Connects whose SYN
    cannot be sent lead to a reachable state in which no connection is open, all ports are free, and
    every Connect to the device is refused.
   */
  lemma FailureReachable(render: Render) returns (d: State)
    ensures Reachable(d) && d.conns == map[] && d.devices.Keys >= {1} && d.devices[1].nextSport == 0
    ensures forall port: u16, synOk: bool, now: nat ::
              var d' := Step(d, Attempt(port, synOk, now));
              && d'.conns == map[] && 0 in d.clients && 0 in d'.clients
              && d'.clients[0].queued == d.clients[0].queued +
                  [Notice(d.clients[0].version, 0, ConnectReply(RESULT_BADDEV))]
  {
    hide Step, Reachable;
    d := Attempts(render, 65535);
    forall port: u16, synOk: bool, now: nat
      ensures var d' := Step(d, Attempt(port, synOk, now));
              && d'.conns == map[] && 0 in d.clients && 0 in d'.clients
              && d'.clients[0].queued == d.clients[0].queued +
                  [Notice(d.clients[0].version, 0, ConnectReply(RESULT_BADDEV))]
    {
      RefusedWithAllFree(d, port, synOk, now);
      AttemptIs(d, 0, port, synOk, now);
    }
  }
}
