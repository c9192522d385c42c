/** `PacketReceiver`: the readiness-notification handler, the per-read step
    `processSocket`, and the drain loop that repeats it. The socket, `errno`,
    the channel registry and the error reporter are inputs and recorded
    events: each read is a scripted `ReadOutcome`, and what the receiver hands
    to its collaborators is collected in a `Trace`. */
module PacketReceiver {
  import opened NetTypes
  import opened SocketErrors
  import opened Dispatch

  /** The receiver's own state: the identity of the standing packet
      `pNextPacket_`, and the next identity `new Packet()` will hand out. */
  datatype Receiver = Receiver(next: nat, nextFree: nat)
  {
    /** Every identity handed out so far is below `nextFree`. */
    predicate Valid()
    {
      next < nextFree
    }
  }

  /** The constructor allocates the first standing packet. */
  function NewReceiver(): (r: Receiver)
    ensures r.Valid()
  {
    Receiver(0, 1)
  }

  /** What the network interface and socket tell the receiver during one
      notification: the channel `findChannel` returns for the socket, whether
      the interface is verbose, and `socket_.addr()`. */
  datatype Interface = Interface(channel: Option<Channel>, verbose: bool, addr: Address)

  /** One call of `recvFromEndPoint`: its length, the `errno` it leaves, and
      what `getClosedPort` would yield right after it. */
  datatype ReadOutcome = ReadOutcome(len: int, err: Errno, closedPort: Option<Address>)

  /** A failed read that found the receive buffer empty. */
  predicate IsWouldBlock(o: ReadOutcome)
  {
    o.len < 0 && o.err == EAGAIN
  }

  /** One call of `processSocket`. */
  datatype Step = Step(keepDraining: bool, rcv: Receiver, delivery: Option<Delivery>, report: Option<Report>)

  /** `processSocket(expectingPacket)`: read into the standing packet; on a
      failed read ask the classifier; otherwise swap in a fresh standing
      packet, dispatch the filled one and report a failed dispatch when
      verbose. */
  function ProcessSocket(rcv: Receiver, o: ReadOutcome, expectingPacket: bool, net: Interface): (s: Step)
    // a failed read: the classifier decides, nothing is dispatched, the standing packet stays
    ensures o.len <= 0 ==>
              && s.rcv == rcv
              && s.delivery.None?
              && Verdict(s.keepDraining, s.report) == CheckSocketErrors(o.len, o.err, expectingPacket, o.closedPort)
    // a successful read: the standing packet, holding `len` bytes, is dispatched and draining goes on
    ensures o.len > 0 ==>
              && s.keepDraining
              && s.delivery == Some(ProcessPacket(Packet(rcv.next, o.len), net.channel))
              && (s.report.Some? <==> s.delivery.value.reason != Success && net.verbose)
              && (s.report.Some? ==> s.report.value == Report(s.delivery.value.reason, Some(net.addr)))
    // the new standing packet is fresh: distinct from the dispatched one and from every earlier one
    ensures rcv.Valid() ==> s.rcv.Valid() && rcv.next <= s.rcv.next && rcv.nextFree <= s.rcv.nextFree
    ensures rcv.Valid() && o.len > 0 ==> rcv.nextFree <= s.rcv.next && s.rcv.next != s.delivery.value.packet.id
  {
    if o.len <= 0 then
      var v := CheckSocketErrors(o.len, o.err, expectingPacket, o.closedPort);
      Step(v.keepDraining, rcv, None, v.report)
    else
      var cur := Packet(rcv.next, o.len);
      var rcv' := Receiver(rcv.nextFree, rcv.nextFree + 1);
      var d := ProcessPacket(cur, net.channel);
      Step(true, rcv', Some(d), FailureReport(d.reason, net.verbose, net.addr))
  }

  /** What a notification did, in order per kind: the `expectingPacket` flag
      of each read, each dispatched packet, each report. */
  datatype Trace = Trace(attempts: seq<bool>, deliveries: seq<Delivery>, reports: seq<Report>)

  const NoTrace := Trace([], [], [])

  /** `a` followed by `b`. */
  function Then(a: Trace, b: Trace): Trace
  {
    Trace(a.attempts + b.attempts, a.deliveries + b.deliveries, a.reports + b.reports)
  }

  /** The trace of one `processSocket` call. */
  function StepTrace(expectingPacket: bool, s: Step): Trace
  {
    Trace([expectingPacket], Elements(s.delivery), Elements(s.report))
  }

  /** The result of draining: the final receiver, the trace, and whether the
      drain ended within the script (`complete`). When the script runs out
      first, the trace is that of its prefix and the real loop would read on. */
  datatype Drained = Drained(rcv: Receiver, trace: Trace, complete: bool)

  /** `processSocket` called over the scripted reads until it returns false,
      the first call with `expectingPacket` and every later one with false. */
  function Drain(rcv: Receiver, script: seq<ReadOutcome>, expectingPacket: bool, net: Interface): (r: Drained)
    ensures |r.trace.attempts| <= |script|
    ensures !r.complete ==> |r.trace.attempts| == |script|
    ensures r.complete ==> |r.trace.attempts| >= 1
    // only the first read carries the caller's flag; every later read passes false
    ensures |r.trace.attempts| > 0 ==> r.trace.attempts[0] == expectingPacket
    ensures forall i :: 1 <= i < |r.trace.attempts| ==> !r.trace.attempts[i]
    // every dispatched packet went through the dispatcher with the interface's channel
    ensures forall i :: 0 <= i < |r.trace.deliveries| ==>
              r.trace.deliveries[i] == ProcessPacket(r.trace.deliveries[i].packet, net.channel)
    decreases |script|
  {
    if |script| == 0 then
      Drained(rcv, NoTrace, false)
    else
      var s := ProcessSocket(rcv, script[0], expectingPacket, net);
      var t := StepTrace(expectingPacket, s);
      if !s.keepDraining then
        Drained(s.rcv, t, true)
      else
        var rest := Drain(s.rcv, script[1..], false, net);
        Drained(rest.rcv, Then(t, rest.trace), rest.complete)
  }

  /** One call of `registerChannel` for a newly accepted socket. */
  datatype Registration = Registration(socket: nat, kind: ChannelKind)

  /** What `handleInputNotification` did. */
  datatype Notified = Notified(ret: int, rcv: Receiver, trace: Trace, registered: seq<Registration>, complete: bool)

  /** `handleInputNotification(fd)`: on the receiver's own (listening)
      socket accept one connection, given as `accepted` (the new socket, or
      none when `accept` failed); on any other descriptor drain the socket. */
  function HandleInputNotification(fd: int, sock: int, accepted: Option<nat>, script: seq<ReadOutcome>,
                                   rcv: Receiver, net: Interface): (n: Notified)
    ensures n.ret == 0
    // the listening socket: no reads, no dispatch; a failed accept is one general report,
    // a successful one registers exactly one internal channel
    ensures fd == sock ==>
              && n.trace.attempts == [] && n.trace.deliveries == [] && n.rcv == rcv && n.complete
              && (accepted.None? ==> n.trace.reports == [Report(GeneralNetwork, None)] && n.registered == [])
              && (accepted.Some? ==> n.trace.reports == [] && n.registered == [Registration(accepted.value, Internal)])
    // any other descriptor: a drain whose first read expects a packet, and no registration
    ensures fd != sock ==>
              && n.registered == []
              && Drained(n.rcv, n.trace, n.complete) == Drain(rcv, script, true, net)
  {
    if fd == sock then
      match accepted
      case None =>
        Notified(0, rcv, Trace([], [], [Report(GeneralNetwork, None)]), [], true)
      case Some(newSocket) =>
        Notified(0, rcv, NoTrace, [Registration(newSocket, Internal)], true)
    else
      var d := Drain(rcv, script, true, net);
      Notified(0, d.rcv, d.trace, [], d.complete)
  }

  /** The trace `acc` followed by a drain's result. */
  function Prefixed(acc: Trace, d: Drained): Drained
  {
    Drained(d.rcv, Then(acc, d.trace), d.complete)
  }

  /** One unfolding of `Drain` at position `i` of the script. */
  lemma DrainUnfold(cur: Receiver, script: seq<ReadOutcome>, i: nat, expectingPacket: bool, net: Interface)
    requires i < |script|
    ensures var s := ProcessSocket(cur, script[i], expectingPacket, net);
            Drain(cur, script[i..], expectingPacket, net)
              == if s.keepDraining then Prefixed(StepTrace(expectingPacket, s), Drain(s.rcv, script[i + 1..], false, net))
                 else Drained(s.rcv, StepTrace(expectingPacket, s), true)
  {
  }

  /** Prefixing by `acc` then by `t` is prefixing by `acc` followed by `t`. */
  lemma PrefixedThen(acc: Trace, t: Trace, d: Drained)
    ensures Prefixed(acc, Prefixed(t, d)) == Prefixed(Then(acc, t), d)
  {
  }

  /** The handler written as the source's loop: one `processSocket(true)`,
      then `processSocket(false)` while it returns true (or the script runs
      out). */
  method RunNotification(fd: int, sock: int, accepted: Option<nat>, script: seq<ReadOutcome>,
                         rcv: Receiver, net: Interface) returns (n: Notified)
    ensures n == HandleInputNotification(fd, sock, accepted, script, rcv, net)
  {
    if fd == sock {
      if accepted.None? {
        n := Notified(0, rcv, Trace([], [], [Report(GeneralNetwork, None)]), [], true);
      } else {
        n := Notified(0, rcv, NoTrace, [Registration(accepted.value, Internal)], true);
      }
      return;
    }
    var cur := rcv;
    var acc := NoTrace;
    var i := 0;
    var going := true;
    while going && i < |script|
      invariant 0 <= i <= |script|
      invariant going ==> Drain(rcv, script, true, net) == Prefixed(acc, Drain(cur, script[i..], i == 0, net))
      invariant !going ==> Drain(rcv, script, true, net) == Drained(cur, acc, true)
      decreases |script| - i, going
    {
      var s := ProcessSocket(cur, script[i], i == 0, net);
      DrainUnfold(cur, script, i, i == 0, net);
      if s.keepDraining {
        PrefixedThen(acc, StepTrace(i == 0, s), Drain(s.rcv, script[i + 1..], false, net));
      }
      acc := Then(acc, StepTrace(i == 0, s));
      cur := s.rcv;
      going := s.keepDraining;
      i := i + 1;
    }
    if going {
      assert script[i..] == [];
    }
    n := Notified(0, cur, acc, [], !going);
  }
}
