/**
  The failure of the growth of an output buffer in a run of the daemon: a client that issues commands
  the daemon does not know, and never reads the replies.
 */
module GrowthRun {
  import opened Words
  import opened Transport
  import opened Messages
  import opened Daemon
  import opened DaemonRuns
  import opened DaemonTheorems
  import opened Handover
  import ClientOutput

  /** Client 0 has `n` binary replies in its buffer and has read none. */
  ghost predicate Unread(d: State, form: Form, n: nat) {
    && d.render == Protocol(form) && 0 in d.clients
    && var cl := d.clients[0];
      && cl.state == Commanding && cl.events.rd && cl.version == 0 && cl.sent == []
      && |cl.queued| == n && |cl.ob| == ClientOutput.RESULT_LENGTH * n
  }

  const UNKNOWN: Event :=
    CommandArrives(0, Command(0, false, 0, OtherOp(RESULT_BADCOMMAND)), World({}, map[]))

  lemma ReplyLength(form: Form, n: Notice)
    requires n.version == 0 && n.note.Reply?
    ensures |Protocol(form)(n)| == ClientOutput.RESULT_LENGTH
  {
    hide Encode;
    assert |Encode(MessageOf(form, n))| == HEADER_SIZE + |Payload(form, n)|;
  }

  lemma UnknownIs(d: State, form: Form, n: nat)
    requires Unread(d, form, n)
    ensures Step(d, UNKNOWN) == d.(clients := d.clients[0 :=
        Queue(d.render, d.clients[0], 0, Reply(RESULT_BADCOMMAND))])
  {
    hide Queue;
    assert d.clients[0 := d.clients[0]] == d.clients;
  }

  lemma {:induction false} OneMoreUnread(d: State, form: Form, n: nat)
    requires Unread(d, form, n)
    ensures Unread(Step(d, UNKNOWN), form, n + 1)
  {
    UnknownIs(d, form, n);
    ReplyLength(form, Notice(0, 0, Reply(RESULT_BADCOMMAND)));
    hide Step, Protocol;
  }

  lemma {:induction false} Flood(form: Form, n: nat) returns (d: State)
    ensures Reachable(d) && Unread(d, form, n)
  {
    if n == 0 {
      var d0 := Boot(Protocol(form));
      assert d0 == Run(d0, []);
      ReachableStep(d0, Accept);
      d := Step(d0, Accept);
    } else {
      hide Step, Reachable, Unread;
      var before := Flood(form, n - 1);
      OneMoreUnread(before, form, n - 1);
      ReachableStep(before, UNKNOWN);
      d := Step(before, UNKNOWN);
    }
  }

  /**
    That the output buffer has room for every message is false of the daemon: there is a reachable
    state in which the buffer of a client is full, at the capacity the replies have made it grow to,
    and in which the next reply makes the computation of the new capacity wrap to 0.
   */
  lemma {:induction false} GrowthFailureReachable(form: Form) returns (d: State)
    ensures Reachable(d) && Unread(d, form, ClientOutput.LAST_MESSAGE)
    ensures |d.clients[0].ob| == ClientOutput.Capacity(ClientOutput.LAST_MESSAGE) == 0xFFFF_F000
    ensures |Step(d, UNKNOWN).clients[0].ob| == 0xFFFF_F000 + ClientOutput.RESULT_LENGTH
    ensures ClientOutput.Wraps(0xFFFF_F000, ClientOutput.RESULT_LENGTH)
    ensures ClientOutput.Capacity(ClientOutput.LAST_MESSAGE + 1) == 0
  {
    d := Flood(form, ClientOutput.LAST_MESSAGE);
    OneMoreUnread(d, form, ClientOutput.LAST_MESSAGE);
    hide Step, Reachable;
    ClientOutput.CapacityWraps();
    ClientOutput.GrowthFails();
  }
}
