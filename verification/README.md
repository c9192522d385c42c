# PacketReceiver — a Dafny model of KBEngine's packet-reception core

This project models `Mercury::PacketReceiver` from KBEngine's network layer
(`kbe/src/lib/network/packet_receiver.cpp`). That class is the boundary where
a readiness notification on a socket turns into received packets. It has
three parts:

- **Read-failure classifier** (`checkSocketErrors`, the unix variant). It
  maps a failed read to a decision: keep draining or stop. It also decides on
  an optional report to the error reporter: `REASON_GENERAL_NETWORK`, or
  `REASON_NO_SUCH_PORT` with the offending address.
- **Drain loop** (`handleInputNotification` with `processSocket`). A
  notification on the receiver's listening socket accepts one connection. A
  notification on any other descriptor reads repeatedly. The first read passes
  `expectingPacket = true` and every later read passes `false`. Reading stops
  at the first read for which `processSocket` returns false. Each successful
  read hands the filled standing packet to the dispatcher and puts a fresh one
  in its place.
- **Dispatcher** (`processPacket` / `processFilteredPacket`). It looks up the
  socket's channel and tells it the packet's size. It then passes the packet
  to the channel's filter, or, when there is no channel or no filter, to the
  default handoff, which succeeds. A non-success result is reported with the
  socket's address, but only on a verbose interface.

Everything the receiver gets from outside is an input of the model. That
covers the socket, `errno`, `getClosedPort`, the channel registry and the
filter. Each read is a scripted `ReadOutcome`: its length, the `errno` it
leaves, and what `getClosedPort` would return after it. Whatever the receiver
passes to its collaborators is recorded in a `Trace`:

- the `expectingPacket` flag of each read;
- each dispatched packet, with where it went and its accounting;
- each call of `reportException`.

Packets are fresh identities, and the receiver's state is the identity of the
standing packet plus the next free identity.

Files, one module each:

- `net_types.dfy`: addresses, reasons, `errno` values, reports, packets, channels, filters.
- `socket_errors.dfy`: the classifier, plus a reference classification in three outcomes.
- `dispatch.dfy`: `processPacket`, `processFilteredPacket` and the verbose failure report.
- `packet_receiver.dfy`: `processSocket`, the drain, the handler, and the handler as a loop.
- `drain_properties.dfy`: where a drain stops, the counts of reads, dispatches and reports, and packet freshness.
- `scenarios.dfy`: concrete notifications.

### Behaviour worth noting

- `expectingPacket` is `true` only on the first read of a notification and
  `false` on every later one (packet_receiver.cpp:49-51). A would-block on the
  first read is therefore reported, and a would-block on any later read ends
  the drain without a report (:105-114). `SocketErrors.Classify` takes the
  flag the other way round (`laterRead`), and `CheckSocketErrors` is proved
  against it with the flag negated.
- A zero-length read and every hard error, including a refused or unreachable
  peer, make `processSocket` return `true` (:95, :143, :172), so the drain
  goes on after such a read. It ends only on `EAGAIN` at a read after the
  first. `DrainProperties.NoLaterWouldBlockReadsEverything` states the
  consequence: without such a would-block, the drain never ends. After a
  refused first read the socket is read again
  (`Scenarios.RefusedFirstReadWithOffender`).
- `EAGAIN` on the first read enters the same block as
  `ECONNREFUSED`/`EHOSTUNREACH` (:118-120). It is reported as
  `REASON_NO_SUCH_PORT` with the offender whenever `getClosedPort` succeeds
  (:129-143), and as `REASON_GENERAL_NETWORK` otherwise (:169-172).

## Model

| member | source | states |
|---|---|---|
| SocketErrors.CheckSocketErrors | kbe/src/lib/network/packet_receiver.cpp:83-173 | returns false exactly for `EAGAIN` on a non-zero-length read that did not expect a packet; returns true exactly when it reports; a zero-length read always reports `REASON_GENERAL_NETWORK`; `EAGAIN` (when a packet was expected), `ECONNREFUSED` or `EHOSTUNREACH` report `REASON_NO_SUCH_PORT` with the offender if `getClosedPort` yields one, and a general error otherwise; any other code reports a general error; agrees with the three-outcome classification (retry / peer unreachable / fatal) |
| Dispatch.ProcessPacket | kbe/src/lib/network/packet_receiver.cpp:176-197 | without a channel: default handoff, `REASON_SUCCESS`, no accounting; with a channel: exactly one `onPacketReceived(totalSize)` for that channel; the filter is used if and only if the channel has one, and then its result is returned and the default handoff is skipped |
| Dispatch.FailureReport | kbe/src/lib/network/packet_receiver.cpp:73-77 | a dispatch result is reported if and only if it is not success and the interface is verbose, and the report carries that result and the socket's address |
| PacketReceiver.NewReceiver | kbe/src/lib/network/packet_receiver.cpp:17-23 | the constructor leaves one standing packet whose identity is below every identity still to be handed out |
| PacketReceiver.ProcessSocket | kbe/src/lib/network/packet_receiver.cpp:61-80 | a read of length at most zero goes to the classifier, dispatches nothing and keeps the standing packet; a positive-length read dispatches the standing packet with that many bytes, returns true whatever the dispatch result, reports a failed dispatch only when verbose, and installs a fresh standing packet distinct from the dispatched one and from every earlier one |
| PacketReceiver.Drain | kbe/src/lib/network/packet_receiver.cpp:49-55 | reads at most the script, and all of it if no read stops the drain; only the first read carries the caller's flag and every later read passes false; every dispatched packet is the dispatcher's result for it under the socket's channel |
| PacketReceiver.HandleInputNotification | kbe/src/lib/network/packet_receiver.cpp:31-58 | always returns 0; on the listening socket there are no reads or dispatches, a failed `accept` gives exactly one `REASON_GENERAL_NETWORK` report, and a successful one registers exactly one internal channel; on another descriptor nothing is registered and the drain starts with `expectingPacket = true` |
| PacketReceiver.RunNotification | kbe/src/lib/network/packet_receiver.cpp:31-58 | the handler written as the source's `if (processSocket(true)) while (processSocket(false));` computes the same result as the recursive drain |
| DrainProperties.DrainStopsAtFirstStop | kbe/src/lib/network/packet_receiver.cpp:105-114 | a drain ends within the script if and only if some read hits a would-block while not expecting a packet, and then its last read is the first such read |
| DrainProperties.ReadCountIsFirstLaterWouldBlock | kbe/src/lib/network/packet_receiver.cpp:49-55 | on a peer socket, the number of reads is the index of the first would-block at position 1 or later, plus one; the first read passes `expectingPacket = true` and all others pass false |
| DrainProperties.NoLaterWouldBlockReadsEverything | kbe/src/lib/network/packet_receiver.cpp:49-55 | with no would-block after the first read, zero-length reads and hard errors do not end the drain: every scripted read is made and the drain has not ended |
| DrainProperties.DrainReportCount | kbe/src/lib/network/packet_receiver.cpp:61-80 | counted over a whole drain, reports plus dispatches plus the silent read that ends it (if it ended) equal the reads made plus, on a verbose interface, the failed dispatches |
| DrainProperties.DrainDispatchesProductiveReads | kbe/src/lib/network/packet_receiver.cpp:63-71 | the dispatched packets' sizes are exactly the lengths of the positive-length reads the drain made, in order |
| DrainProperties.DrainFreshPackets | kbe/src/lib/network/packet_receiver.cpp:69-71 | the first dispatched packet is the standing packet the drain began with; dispatched identities strictly increase; the final standing packet is none of them |
| DrainProperties.NoChannelNoAccounting | kbe/src/lib/network/packet_receiver.cpp:176-197 | with no channel for the socket, every packet reaches the default handoff with success and no accounting, and reports plus dispatches plus the final silent read (if the drain ended) equal the reads made |
| DrainProperties.FilterIsAuthoritative | kbe/src/lib/network/packet_receiver.cpp:180-187 | on a channel with a filter, every packet goes to the filter, the filter's result stands, and the channel is told the packet's size |
| DrainProperties.FirstReadWouldBlockIsReported | kbe/src/lib/network/packet_receiver.cpp:116-150 | a would-block on the first read is reported (as `REASON_NO_SUCH_PORT` with the offender when it resolves, else as a general error) and the drain reads again |
| Scenarios.ThreePacketsThenWouldBlock | kbe/src/lib/network/packet_receiver.cpp:49-80 | three queued packets then an empty buffer: four reads, three dispatches with the read lengths, no report on a quiet interface |
| Scenarios.RefusedFirstReadWithOffender | kbe/src/lib/network/packet_receiver.cpp:127-144 | a refused first read with a resolvable offender is reported as `REASON_NO_SUCH_PORT` with that address, and the socket is read again |
| Scenarios.RefusedFirstReadUnresolved | kbe/src/lib/network/packet_receiver.cpp:145-172 | a refused first read whose offender cannot be resolved is reported as `REASON_GENERAL_NETWORK` |
| Scenarios.ZeroLengthReadKeepsDraining | kbe/src/lib/network/packet_receiver.cpp:86-96 | a zero-length read between packets is reported as a general error and the next packet is still read and dispatched |

## Left out

- The `_WIN32` classifier (would-block stops, `WSAECONNRESET` continues silently, anything else is a general error) and the `PLAYSTATION3` branch: these are platform variants, and only the unix branch is modelled.
- Logging (`WARNING_MSG`, `strerror`): it has no effect on the decisions.
- Sockets, `recvFromEndPoint`, `accept` and the global `errno`: each read is a scripted outcome, and `accept` is an optional new socket number.
- Reference counting and the lifetime of `Packet`/`PacketPtr`: a packet is a fresh identity with a size, and the model proves it is never reused.
- Constructing a `Channel`, and the internals of `registerChannel`/`findChannel`: a registration is a recorded event, and the lookup result is an input.
- `EventDispatcher`, `dispatcher()`, the error reporter's own behaviour and the destructor: reports are recorded events.
- Filter internals (decryption, reassembly): a filter is an opaque function from packet to reason.
- The empty `ECONNREFUSED` block inside the `getClosedPort` branch: it has no behaviour.
- PacketReceiver.Drain: assumes the channel lookup result, the verbose flag and the socket address stay the same for one notification. The source calls `findChannel` again for each packet (:178), and the filter (:186) or the error reporter (:76, :131-134) may change the registry during a drain; the model does not follow such changes. `DrainProperties.FilterIsAuthoritative` and `DrainProperties.NoChannelNoAccounting` rest on this assumption.
- PacketReceiver.Drain: the script of reads is finite, so when it runs out before a stopping would-block the result is marked incomplete; the real loop would go on reading.
