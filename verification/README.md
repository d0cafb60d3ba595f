# usbmuxd: a model and its proofs

usbmuxd carries many TCP-like streams over one USB pipe per device and offers them to local
clients on a socket. This project models the three files that do it — `src/device.c`,
`src/client.c`, `src/usb.c` — and proves what they promise, for every run.

## How it is built

Each operation is given twice. A function on values says what it does; a method of a class does it
in place, with the loops, buffers and recursive calls of the C code, and is proved to reach exactly
the state the function gives. The theorems are about the functions and the runs made of them.

| module | models |
|---|---|
| `Words` | 32-bit counters that wrap |
| `Transport`, `Connection` | one `mux_connection` on the host: segments in and out, buffers, windows, delayed acknowledgements; in place in `MuxConnection` |
| `Link` | that connection, an honest device with 32-bit counters of its own, and a FIFO pipe each way; runs are any interleaving |
| `Ports`, `PortsRun` | `find_sport`, and its failure in a run of the daemon |
| `Daemon`, `DaemonInv`, `DaemonSteps`, `DaemonRuns`, `DaemonTheorems` | all clients, devices and connections together; devices may send anything; the invariant, that every event keeps it, what follows |
| `EarlyConnects` | Connects to devices that are not active yet: what they break, and that nothing else does |
| `Teardown`, `Usbmuxd` | the same daemon in place (`Muxd`), with the mutual recursion of teardown and close and the loops over the tables |
| `History` | the payload owed to a client, computed from the events of a run alone |
| `EndToEnd`, `Endings` | a connection inside the daemon takes the steps of a `Link`, whatever everybody else does, up to and with the step that ends it |
| `Messages`, `ClientInput`, `ClientOutput`, `Handover` | the client protocol: framing of commands, the output buffer, and the point where payload begins |
| `GrowthRun` | the failure of the output buffer's growth in a run of the daemon |
| `Reassembly`, `Bulk`, `MuxWire` | mux packets as bytes: headers, bulk transfers and zero-length packets, reading in pieces, reassembly |
| `Discovery`, `UsbList` | the USB device list, mark and sweep, hotplug, above the daemon (`UsbBus`) |

Main results:

- `EndToEnd.ServedFaithfully`: from the moment a Connect gets its connection, and as long as that
  connection lasts and its device is honest, the client has been given exactly the device's stream
  so far (less what is buffered or on its way), the device has exactly the client's (less what is on
  its way), the buffer stays within the window of 131072 bytes, and pacing is exact and cannot wedge —
  while other clients and other devices, hostile ones included, do what they like.
- `Endings.ServedToTheEnd`: whatever event ends such a connection, the client then has what the
  teardown flush adds, a prefix of what the device sent.
- `History.DeliveredIsPayload`: for every run and any behaviour of the devices, what a client was
  given and what is buffered are the accepted payloads of the segments addressed to it.
- `Link.WindowSafety`, `ExactDelivery`, `SendTiling`, `SendableExact`, `SegmentInWindow`,
  `PendingExact`, `NoWindowDeadlock`: flow control in both directions, across wrap-around.
- `DaemonTheorems`: coupling of client and connection states, no dangling reference, one reply per
  Connect, the listener's view, no lost wake-up, unique port match, timers; all for every
  reachable state, with segments from the devices arbitrary.
- `Usbmuxd.Muxd`: teardown, close and abort call one another, terminate, and reach the closed form.
- `MuxWire.PipeCarriesSegments`: segments laid out, sent, cut into bus packets, read in pieces,
  reassembled and dispatched come out as they went in.
- `Handover.ClientReads`: a client that reads messages off its socket gets those queued for it, and
  behind the last of them a prefix of the device's stream.
- `ClientInput.RunSplits`: commands are read the same however the socket cuts them.
- `Discovery.TablesAgree`: the mux table never refers to a USB device that is gone.
- `EarlyConnects.SoundExactly`: a run keeps the invariant of the daemon, and with it every theorem of
  `DaemonTheorems`, if and only if it comes to no early Connect (the fourth item below).

Four properties one might expect are false of the code.

- Allocation of a source port can fail with every port free, because the 16-bit counter passes 0 and
  moves on even when the SYN cannot be sent. `Ports.FailsWithAllFree` gives the input,
  `PortsRun.FailureReachable` a run of the daemon that gets there, `Ports.FailsExactly` says exactly
  when it fails, and `Ports.RetrySucceeds` that the failure is not repeated.
- The zero-length packet rule of `usb_send` would double an empty packet. `Bulk.BoundariesKept` says
  that boundaries are kept if and only if no packet is empty, and `MuxWire.BuiltWellFormed` that none is.
- The growth of a client's output buffer is computed with 32 bits. `ClientOutput.GrowthFits` says that
  the new buffer has room if and only if the sum does not wrap. `ClientOutput.GrowthFails` gives the
  input, capacity 0xFFFFF000 and a result message of 20 bytes, at which the new capacity is 0;
  `ClientOutput.CapacityWraps` says that a client that never reads is there after 214748160 results, and
  `GrowthRun.GrowthFailureReachable` gives the run of the daemon.
- That no connection refers to a device that is gone fails if a client connects too early:
  `device_start_connect` does not test that the device has answered the version request, and
  `device_remove` tears down the connections of active devices only. `EarlyConnects.DanglingRun` gives
  the input: accept a client, add a device, connect to identifier 1 while it is in INIT, remove the
  device; the client then waits on a connection of a device that is not there. `EarlyConnects.ConnectExact`
  says that a Connect keeps the invariant if and only if it is not early, `SoundExactly` and
  `AnchoredExactly` say the same of whole runs, and `EarlyDangles` that leaving, or answering with an
  unknown version, is enough to dangle. The condition, `Daemon.EarlyConnect`, can be read off the tables
  before the call. In the code `connections` of such a device is not initialised yet
  (`src/device.c:586`), so what `find_sport` reads and the addition at `src/device.c:402` are not
  defined; the model takes the collection to be empty, which is why its runs stop at that Connect.

## What is assumed of the outside

- Results of the system are parameters: how many bytes a socket takes or gives, whether a USB
  transfer is accepted, the time, the order in which a table is scanned.
- A socket is touched only for what its poll mask asks. Allocation of memory succeeds. One step ends
  before the next begins.
- Runs of the daemon leave out exactly the early Connects: a Connect to a device in INIT for which there
  is a port and the SYN is sent. Those that fail for other reasons are in. `EarlyConnects.FreeRun` has
  all of them, and `EarlyConnects.PatientReachable` says that its runs without early Connects are the
  runs of the theorems.
- An honest device starts at sequence number 0, answers over a FIFO pipe, and keeps its
  unacknowledged data within the last window it was given (sections 3.4 and 3.8.6 of RFC 9293; the
  windows are scaled by 8 bits as in section 2.3 of RFC 7323). Incoming sequence numbers are
  recorded and never compared by the code, so order rests on the pipe. In `EndToEnd.Faithful` this
  also means that no segment of an earlier connection with the same two ports is still in the pipe
  when a source port is used again.
- No serial callback of libusb comes after its device is closed, or a second time. `usb_disconnect` does
  not cancel that control transfer; `Discovery.SerialExact` says that a callback which sets a device up
  keeps the tables consistent if and only if the device is still listed and has no mux device.
- A step ends when its connection or client is torn down. The code goes on for a few statements
  after a possible teardown at `src/device.c:702-704`, `src/device.c:713-716` and
  `src/client.c:953-954`. The first cannot be reached (`DaemonTheorems.NotifyFindsWaiting`), nor can
  the overflow before the second with an honest device (`Link.WindowSafety`,
  `EndToEnd.NoOverflow`).
- A device lays out its packets as `send_packet` does, and ends each with a short bus packet; the
  empty one it may leave out behind a multiple of 16384 bytes, where the reader's buffer is full
  anyway (`Bulk.Terminated`). `usb_send` on the host is such a sender (`Bulk.WireTerminated`).
- The build without preflight, in which a device becomes active and visible in one step.

## Model

| member | source | states |
|---|---|---|
| `EndToEnd.ServedFaithfully` | src/device.c:355-549 | for every run of the whole daemon: a connection with an honest device delivers the device's stream exactly, forwards the client's exactly with what is in flight, stays within the window, has exact `sendable` and pending flag, cannot wedge, and its 32-bit numbers are the stream positions |
| `EndToEnd.EventTracks` | src/device.c:468-549 | every event of the daemon, for whomever, either ends the connection or moves it exactly as the matching step of the link moves its host side |
| `EndToEnd.CourseTracks` | src/device.c:638-718 | over any run the connection, its client and its USB traffic stay in the state of the link |
| `EndToEnd.ConnectStarts` | src/device.c:363-403 | a Connect that gets a connection starts it as a link: fresh counters, window 131072, a SYN in the pipe |
| `EndToEnd.ServedInWindow` | src/device.c:498-518 | after any such run the next data segment starts at the stream position and ends inside the last window received |
| `EndToEnd.NoOverflow` | src/device.c:538-544 | after any such run the next segment of the device does not meet the overflow branch |
| `EndToEnd.CourseReachable` | src/device.c:638-718 | the steps the daemon makes a connection take are a run of the link |
| `Endings.ServedToTheEnd` | src/device.c:302-353 | whatever event ends the connection, the last record of the client has exactly what the link delivers with its teardown flush, a prefix of what the device sent |
| `Endings.EventEnds` | src/client.c:254-300 | every way a connection can end, for whatever reason, leaves the client's record as the matching teardown of the link |
| `History.DeliveredIsPayload` | src/device.c:538-549 | for every run and any device: delivered bytes and buffer are the accepted payloads of the segments addressed to the client, in order; a client that is gone was given a prefix |
| `History.StepNews` | src/device.c:652-718 | every event adds to a client's record exactly the payload it brings for it, and none otherwise |
| `Transport.BufferGains` | src/device.c:538-549 | a segment adds to the buffer exactly its payload if it is accepted data, and nothing otherwise |
| `Link.WindowSafety` | src/device.c:538-549 | in every run with an honest device the buffer, with what is on its way, stays within 131072 bytes and never overflows |
| `Link.ExactDelivery` | src/device.c:481-497 | delivered bytes and buffer are the accepted payloads, a prefix of what the device sent; `tx_ack` is 1 + delivered and `tx_ack + ib_size` is `rx_recvd + 1`, modulo 2^32; also through the teardown flush |
| `Link.SendTiling` | src/device.c:498-518 | the device rejects nothing; its stream and what is in flight are the client's bytes, without gap or overlap |
| `Link.SendableExact` | src/device.c:413-444 | wrapped subtraction gives the true unacknowledged count, and `sendable` is the least of the true room, the buffer and the payload limit |
| `Link.SegmentInWindow` | src/device.c:498-518 | every data segment starts at the stream position and ends inside the last window received |
| `Link.PendingExact` | src/device.c:437-440 | an acknowledgement is pending exactly if delivered bytes are unacknowledged, across wrap-around |
| `Link.NoWindowDeadlock` | src/device.c:427-443 | when the device may not send, something is in the pipe, in the buffer or on the timer: delayed acknowledgements cannot wedge a stream |
| `Link.StepKeeps` | src/device.c:278-300 | every step of host, device, client and timer keeps the two-party invariant |
| `Link.DataTakeFits` | src/device.c:421-425 | the next data segment is always acceptable to the device |
| `MuxWire.TurnAcceptable` | src/device.c:421-425 | no data segment of a settled connection is rejected by `send_packet` for its size, with either header |
| `MuxWire.ReplyAcceptable` | src/device.c:208-215 | nor is any reply to a segment |
| `Connection.MuxConnection.constructor` | src/device.c:373-392 | a new connection is the opening state, with both buffers of their sizes |
| `Connection.MuxConnection.SendTcp` | src/device.c:278-300 | the segment sent is the one specified; success clears the pending acknowledgement and records it |
| `Connection.MuxConnection.UpdateConnection` | src/device.c:413-444 | the masks, `sendable` and the pending flag become those specified, nothing else changes |
| `Connection.MuxConnection.Consume` | src/device.c:490-496 | dropping the front of the buffer in place leaves exactly the rest |
| `Connection.MuxConnection.DeviceInput` | src/device.c:538-549 | the payload is appended in place, or overflow is reported and nothing changes |
| `Connection.MuxConnection.SendTcpAck` | src/device.c:446-458 | an acknowledgement goes out and the connection is updated, or it is to be torn down |
| `Connection.MuxConnection.Establish` | src/device.c:690-704 | the handshake is completed exactly as specified |
| `Connection.MuxConnection.TcpInput` | src/device.c:669-718 | any segment in any state gives the specified new state, reply and verdict |
| `Connection.MuxConnection.Deliver` | src/device.c:484-497 | bytes written to the client leave the buffer and advance the acknowledgement by as many |
| `Connection.MuxConnection.Forward` | src/device.c:510-518 | client bytes go out as one segment and advance the sequence number by as many |
| `Connection.MuxConnection.ClientProcess` | src/device.c:468-519 | a turn of the client writes, reads, sends and updates exactly as specified, in that order |
| `Connection.MuxConnection.Flush` | src/device.c:319-345 | the teardown flush hands over exactly the prefix the socket has room for |
| `Ports.PortAllocator.FindSport` | src/device.c:243-260 | the retry loop ends, and gives the specified port and counter |
| `Ports.StopsAtFree` | src/device.c:248-259 | the search stops at the first free port from the counter on, modulo 2^16 |
| `Ports.PortIsFree` | src/device.c:243-260 | a port that is returned is not in use |
| `Ports.FailsExactly` | src/device.c:243-260 | allocation fails if and only if the table is full, the counter stands at 0, or all ports from it up to 65535 are in use |
| `Ports.FailsWithAllFree` | src/device.c:243-260 | with no port in use, the counter at 65535 gives that port and then 0, which is a failure |
| `Ports.RetrySucceeds` | src/device.c:248-259 | a failure by wrap-around is followed by a success |
| `PortsRun.FailureReachable` | src/device.c:363-367 | a reachable state with no connection open in which every Connect to an active device is answered RESULT_BADDEV |
| `PortsRun.RefusedMovesOn` | src/device.c:394-401 | a Connect whose SYN cannot be sent leaves no connection but uses up a port number |
| `EarlyConnects.ConnectExact` | src/device.c:355-403 | a Connect keeps the invariant of the daemon if and only if it is not early: a device in INIT, a port, and the SYN sent |
| `EarlyConnects.SoundExactly` | src/device.c:862-885 | over every run with any Connects the invariant holds all along if and only if none is early |
| `EarlyConnects.AnchoredExactly` | src/device.c:862-885 | every connection is on an active device all along if and only if no Connect is early |
| `EarlyConnects.PatientReachable` | src/device.c:355-403 | a run without early Connects is a run of the theorems on reachable states |
| `EarlyConnects.EarlyDangles` | src/device.c:562-594 | after an early Connect the connection and its waiting client outlive the device, if it leaves or answers with an unknown version |
| `EarlyConnects.DanglingRun` | src/device.c:862-885 | the smallest run that gets there |
| `DaemonTheorems.Coupling` | src/client.c:374-395 | in every reachable state client states and connection states pair up one to one, and no connection rests in a transient state |
| `DaemonTheorems.NothingDangles` | src/device.c:862-885 | no client is bound to a removed device, no connection to a missing client or device, in every run without an early Connect, which `AnchoredExactly` shows to be the exact condition |
| `DaemonTheorems.UniqueMatch` | src/device.c:652-658 | live source ports on a device are distinct and non-zero, so the first match is the only one |
| `DaemonTheorems.HandOver` | src/client.c:876-905 | a socket carries control messages and then a prefix of the accepted payload; no payload before the last byte of the grant, no message after it; also for clients that are gone |
| `DaemonTheorems.NothingLost` | src/device.c:481-497 | for a served client, delivered bytes and buffer are the payload accepted from the device |
| `DaemonTheorems.AnsweredOnce` | src/client.c:374-395 | every Connect, of an unknown protocol version too, gets exactly one reply, with its own tag and in order, unless the client is closed first |
| `DaemonTheorems.ListenerView` | src/client.c:596-616 | the messages to a listener, replayed, give exactly the active visible devices; none is added twice, or removed or reported paired when it is not there, and identifiers are not reused |
| `DaemonTheorems.Wakeups` | src/client.c:162-172 | a served client is polled for output iff bytes are buffered and for input iff the window has room; during the grant these wishes are kept aside; queued output is always polled for |
| `DaemonTheorems.NotifyFindsWaiting` | src/device.c:700-705 | `client_notify_connect` always finds its client waiting, so the branch for its failure is dead |
| `DaemonTheorems.NoneOverdue` | src/device.c:981-998 | after the timer no surviving connection has an acknowledgement older than 30 ms at the sampled time, and only those whose acknowledgement could not be sent are gone |
| `DaemonRuns.StepKeeps` | src/client.c:957-985 | every event keeps the invariant of the daemon |
| `DaemonInv.TearDownKeeps` | src/device.c:302-353 | teardown of any set of connections keeps the invariant |
| `DaemonInv.CloseKeeps` | src/client.c:254-300 | closing a client keeps the invariant and takes its half-open connection along |
| `DaemonSteps.SegmentToKeeps` | src/device.c:669-718 | any segment, honest or not, keeps the invariant |
| `DaemonSteps.TurnOfKeeps` | src/device.c:468-519 | serving a client keeps the invariant |
| `DaemonSteps.TimeoutsKeeps` | src/device.c:981-998 | the timer keeps the invariant |
| `DaemonSteps.ConnectKeeps` | src/device.c:355-403 | a Connect that is not early keeps the invariant, its three failures included, those on devices in INIT too; `ConnectExact` has the other half |
| `DaemonSteps.DetachKeeps` | src/device.c:862-885 | removing a device keeps the invariant: its connections go, their clients meet their fates, listeners hear of it |
| `DaemonSteps.DrainKeeps` | src/client.c:876-905 | sending queued output keeps the invariant, the switch to payload included |
| `Teardown.TearDownCompose` | src/device.c:868-872 | tearing down one more connection after others is tearing down all of them at once: the order of the loop does not matter |
| `Teardown.PutTearCommute` | src/device.c:986-994 | serving one connection and tearing down others can be exchanged |
| `Usbmuxd.Muxd.constructor` | src/client.c:1023-1028 | the daemon starts empty and in the invariant |
| `Usbmuxd.Muxd.ConnectionTeardown` | src/device.c:302-353 | ends, removes the connection once and settles its client as the closed form says, even through the recursive close |
| `Usbmuxd.Muxd.ClientClose` | src/client.c:254-300 | ends, removes the client once and its half-open connection with it |
| `Usbmuxd.Muxd.DeviceAbortConnect` | src/device.c:551-560 | ends, and tears the connection down without its client |
| `Usbmuxd.Muxd.FlushAndClose` | src/device.c:317-347 | what the flush moved is in the final record of the client |
| `Usbmuxd.Muxd.ClientNotifyConnect` | src/client.c:374-395 | queues the reply with the tag of the Connect and moves the client on, or fails and changes nothing |
| `Usbmuxd.Muxd.ClientSetEvents` | src/client.c:162-172 | sets the mask now, later or not at all, by the state of the client |
| `Usbmuxd.Muxd.GetMuxConnection` | src/device.c:150-166 | finds a connection of that device and client if there is one |
| `Usbmuxd.Muxd.ClientAccept` | src/client.c:183-252 | is the accept step of the daemon |
| `Usbmuxd.Muxd.ClientHangUp` | src/client.c:911-919 | is the hang-up step of the daemon |
| `Usbmuxd.Muxd.OutputBufferProcess` | src/client.c:876-905 | is the drain step of the daemon |
| `Usbmuxd.Muxd.StartListen` | src/client.c:596-616 | the client listens and has every visible device queued |
| `Usbmuxd.Muxd.DeviceStartConnect` | src/device.c:355-403 | makes the connection or returns which failure |
| `Usbmuxd.Muxd.ConnectCommand` | src/client.c:854-866 | is the Connect of the daemon, every failure answered at once |
| `Usbmuxd.Muxd.HandleCommand` | src/client.c:641-874 | is the command step of the daemon: wrong states and versions, Listen, Connect, news of a saved pair record to the listeners, and one reply to each other command; an early Connect has the state specified too, which is no longer in the invariant |
| `Usbmuxd.Muxd.DeviceTcpInput` | src/device.c:638-718 | is the segment step of the daemon, stray segments included |
| `Usbmuxd.Muxd.DeviceClientProcess` | src/device.c:468-519 | is the serving step of the daemon |
| `Usbmuxd.Muxd.CheckTimeouts` | src/device.c:981-998 | the loop, with acknowledgements and teardowns as it goes and the clock read for each, is the timer step of the daemon |
| `Usbmuxd.Muxd.GetTimeout` | src/device.c:960-979 | the least remaining time over all pending acknowledgements on active devices, or 100000 if there is none |
| `Usbmuxd.Muxd.Announce` | src/client.c:987-1021 | every listener and nobody else has the message queued |
| `Usbmuxd.Muxd.GetNextDeviceId` | src/device.c:168-184 | the counter itself, which no device has, and it moves on by one |
| `Usbmuxd.Muxd.DeviceAdd` | src/device.c:830-860 | is the arrival step of the daemon |
| `Usbmuxd.Muxd.DeviceVersionInput` | src/device.c:562-594 | is the version step of the daemon: the SETUP packet of version 2, then active, visible and announced; or gone |
| `Usbmuxd.Muxd.DeviceRemove` | src/device.c:862-889 | is the departure step of the daemon for the device on that USB device, or nothing |
| `Messages.DecodeEncode` | src/client.c:311-340 | an encoded message says its own length and reads back, whatever follows it |
| `Messages.ReadOffAll` | src/client.c:333-337 | reading off the encodings gives the messages back and leaves exactly what was behind them |
| `Messages.ReadOffPrefix` | src/client.c:876-905 | reading off any prefix gives a prefix of the messages and less than one message left over |
| `ClientOutput.OutputBuffer.constructor` | src/client.c:219-221 | nothing queued, nothing sent |
| `ClientOutput.OutputBuffer.AddMessage` | src/client.c:311-340 | with or without growing, sent bytes and buffer stay the encoding of all messages; it fits exactly if the growth does not wrap |
| `ClientOutput.OutputBuffer.Process` | src/client.c:883-904 | a partial or full send keeps them so |
| `ClientOutput.GrowthFits` | src/client.c:322-324 | the grown buffer has room for the message if and only if the 32-bit sum does not wrap |
| `ClientOutput.GrowthFails` | src/client.c:322-324 | an input at which the new capacity is 0 |
| `ClientOutput.CapacityPages` | src/client.c:320-331 | as long as nothing wraps, the capacity for a client that never reads is the least number of pages from 16 on that holds its results |
| `ClientOutput.CapacityWraps` | src/client.c:320-331 | after 214748160 results the buffer of such a client is full at 0xFFFFF000 bytes, and the next makes the capacity 0 |
| `GrowthRun.GrowthFailureReachable` | src/client.c:311-340 | a reachable state of the daemon in which a client has exactly that much queued and the next reply wraps |
| `ClientOutput.SentPrefix` | src/client.c:876-905 | what a client has at any time reads off as a prefix of the messages, all of them once nothing waits |
| `Handover.ClientReads` | src/client.c:374-395 | in every reachable state: messages in order, and behind the last of them exactly the delivered prefix of the accepted payload |
| `Handover.ClientReadsPayload` | src/client.c:876-905 | for every run: what a client reads behind its messages is a prefix of the payloads that came for its connection |
| `Handover.ControlEncodes` | src/client.c:357-372 | the control stream of the daemon is the encoding of its messages |
| `ClientInput.RunSplits` | src/client.c:906-955 | for every stream and every way it is cut, commands handled and bytes left are those of the reference |
| `ClientInput.FragmentationIrrelevant` | src/client.c:906-955 | two cuttings of one stream are read alike |
| `ClientInput.SplitConserves` | src/client.c:943-954 | commands and remainder are the stream: nothing lost, reordered or read ahead of its message |
| `ClientInput.CommandsExact` | src/client.c:926-954 | acceptable messages are handled exactly and in order, and the client is closed behind them iff a bad header follows |
| `ClientInput.HandledWhole` | src/client.c:926-936 | whatever arrives, a handled command is a whole message of the length it says, within the buffer |
| `ClientInput.Asked` | src/client.c:911-940 | the reader always asks for something, and never past the message or the buffer |
| `ClientInput.CommandReader.constructor` | src/client.c:222-224 | an empty buffer |
| `ClientInput.CommandReader.Process` | src/client.c:906-955 | one wake-up reads once, and closes, keeps or handles exactly as specified |
| `Reassembly.RoundTrip` | src/device.c:745-790 | packets of 8 to 65536 bytes, cut into transfers with empty ones anywhere and stale bytes behind, are dispatched exactly, and the buffer is empty again |
| `Reassembly.RunAligned` | src/device.c:748-783 | whatever arrives, `pktlen` is a multiple of 16384 and at most 65536 |
| `Reassembly.Resynchronises` | src/device.c:748-783 | after any garbage, one non-empty short transfer is enough for all later packets to be dispatched intact |
| `Reassembly.RunSound` | src/device.c:754-790 | whatever arrives, a dispatched packet is a contiguous stretch of the bytes that arrived, with the right length field |
| `Reassembly.Reassembler.constructor` | src/device.c:842-843 | an empty buffer of 65536 bytes |
| `Reassembly.Reassembler.DataInput` | src/device.c:745-790 | one transfer changes the buffer in place and dispatches as specified |
| `Bulk.BoundariesKept` | src/usb.c:176-201 | a receiver that ends transfers at short packets recovers the packets, for any maximum packet size, if and only if none is empty |
| `Bulk.ReceiveWire` | src/usb.c:187-199 | what is received is what was sent, with empty packets doubled |
| `Bulk.ReadWire` | src/usb.c:253-269 | read in transfers of 16384 bytes, what was sent arrives as the pieces of every packet |
| `Bulk.DeviceToHost` | src/usb.c:206-212 | framed with short packets, the empty one left out at most where the read is full, cut, read in pieces and reassembled, well-formed packets arrive as they were |
| `Bulk.WireTerminated` | src/usb.c:187-199 | `usb_send` frames by that rule |
| `MuxWire.PipeCarriesSegments` | src/device.c:745-821 | segments laid out in packets, framed by that rule, read in pieces, reassembled and dispatched come out as they went in |
| `MuxWire.BuiltWellFormed` | src/device.c:206-221 | every packet `send_packet` builds has the right length field and fits, for every protocol and version |
| `MuxWire.DispatchTcp` | src/device.c:812-821 | reading back a TCP packet gives the segment, with either header |
| `MuxWire.DispatchVersion` | src/device.c:799-805 | a version packet is never too large and reads back |
| `MuxWire.FlagsRoundTrip` | src/device.c:278-287 | any set of flags survives the flags byte |
| `MuxWire.Numbering` | src/device.c:222-231 | the i-th packet carries the number it should, modulo 2^16, from the device's number or from the last SETUP |
| `MuxWire.MuxPort.UsbSend` | src/usb.c:176-201 | exactly the specified transfers are submitted; after a failure, those before it |
| `MuxWire.MuxPort.SendPacket` | src/device.c:186-241 | rejects exactly what is invalid or too large, changing nothing; otherwise submits the specified bytes and counts on |
| `Discovery.DiscoverExact` | src/usb.c:813-866 | after a scan, one entry per bus and address, there exactly if the bus shows the device and it was known or set up without error |
| `Discovery.DiscoverCount` | src/usb.c:842-865 | when the bus shows every device once, the returned number is the size of the list |
| `Discovery.TablesAgree` | src/usb.c:124-131 | in every run every mux device, and so every connection, refers to an entry of the USB list, no two mux devices to the same |
| `Discovery.ConnectionsOnFound` | src/usb.c:835-856 | after a scan every connection that is left runs over a device the bus has just shown |
| `Discovery.DropDeadDevices` | src/usb.c:124-131 | reaping removes the mux devices of dead entries and no others |
| `Discovery.StepThins` | src/device.c:830-889 | no event but those of the USB side adds a device to the mux table |
| `UsbList.UsbBus.constructor` | src/usb.c:1058 | an empty list |
| `UsbList.UsbBus.FindDevice` | src/usb.c:383-396 | the first entry with that bus and address |
| `UsbList.UsbBus.UsbDeviceAdd` | src/usb.c:737-811 | marks the known entry, passes over, or appends a new one, dead if its mode request failed |
| `UsbList.UsbBus.UsbDisconnect` | src/usb.c:84-122 | takes exactly that entry out of the list |
| `UsbList.UsbBus.ReapDeadDevices` | src/usb.c:124-131 | is the reap step, connections and all |
| `UsbList.UsbBus.UsbDiscover` | src/usb.c:813-866 | is the scan step and returns the specified number; an error changes nothing, and the sixth in a row is returned |
| `UsbList.UsbBus.HotplugArrived` | src/usb.c:1016-1019 | is the arrival step |
| `UsbList.UsbBus.HotplugLeft` | src/usb.c:1020-1029 | is the departure step: dead and without mux device, but listed until reaped |
| `UsbList.UsbBus.TransferDone` | src/usb.c:166-168 | marks the device of a failed transfer dead and no other |
| `Discovery.SerialExact` | src/usb.c:304-328 | a serial callback that sets its device up keeps the tables consistent if and only if the device is listed and not carried yet |
| `UsbList.UsbBus.GetSerialCallback` | src/usb.c:304-328 | adds the mux device, or takes the USB device off the list if the version request or all read loops fail |

## Left out

- Preflight (`src/preflight.c`) and its threads, and all mutexes: steps are atomic, and nothing is claimed about deadlock.
- Usbmuxd.Muxd.HandleCommand: the pair-record, BUID, ListDevices and ListListeners commands queue one reply whose content is opaque, as all plists are; the files behind them are outside.
- Memory lifetime: ownership is membership in the tables; a freed object is one that is in none.
- `Usbmuxd.Muxd` keeps connections as values in its tables and not as `MuxConnection` objects, so aliasing between the two is not modelled; both are proved equal to the functions of `Transport`.
- The statements after a teardown within one call at `src/device.c:713-716` and `src/client.c:953-954` are not executed by the model.
- What happens after an early Connect: the code uses a collection that is not initialised. `EarlyConnects` goes as far as the state in which the connection dangles.
- DaemonTheorems.Coupling: of runs without early Connects, as all of `DaemonTheorems`; `EarlyConnects.SoundExactly` says that this is the exact condition.
- DaemonTheorems.NothingDangles: likewise; `EarlyConnects.DanglingRun` is the run in which it fails.
- DaemonSteps.ConnectKeeps: likewise; `EarlyConnects.ConnectExact` is the if-and-only-if.
- The control protocol, and the `rx_seq` recorded from incoming version 2 headers.
- Packets of fewer than 8 bytes: `Reassembly` dispatches them as the code does, `MuxWire.Dispatch` does not read them.
- ClientOutput.OutputBuffer.AddMessage: where `GrowthFits` says that the grown buffer is too small it reports that and changes nothing; what the code does from there depends on `realloc`, whose failure is not modelled.
- UsbList.UsbBus.GetSerialCallback: a callback for a device that is off the list already is outside, as assumed above.
- Device identifiers and client numbers are unbounded counters, where the code has 32 bits.
- Callbacks that run inside the waiting loop of `usb_disconnect`, mode switching, configuration choice and speed tables.
- The client list is a map by number; sockets, `poll` and the descriptor lists of `src/utils.c` are outside.
- Main loop, signals, lock files and logging (`src/main.c`, `src/log.c`), and `src/conf.c`.
