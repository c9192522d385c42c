/** Concrete notifications, each stated as the code handles it. */
module Scenarios {
  import opened NetTypes
  import opened SocketErrors
  import opened Dispatch
  import opened PacketReceiver
  import opened DrainProperties

  /** Three queued packets then an empty buffer: four reads, the three
      packets dispatched in order, nothing reported on a quiet interface. */
  lemma ThreePacketsThenWouldBlock(fd: int, sock: int, rcv: Receiver, net: Interface,
                                   a: ReadOutcome, b: ReadOutcome, c: ReadOutcome, wb: ReadOutcome)
    requires fd != sock && !net.verbose
    requires a.len > 0 && b.len > 0 && c.len > 0 && IsWouldBlock(wb)
    ensures var n := HandleInputNotification(fd, sock, None, [a, b, c, wb], rcv, net);
            && n.complete
            && n.trace.attempts == [true, false, false, false]
            && |n.trace.deliveries| == 3
            && n.trace.deliveries[0].packet.size == a.len
            && n.trace.deliveries[1].packet.size == b.len
            && n.trace.deliveries[2].packet.size == c.len
            && n.trace.reports == []
  {
    var script := [a, b, c, wb];
    var s0 := ProcessSocket(rcv, a, true, net);
    var s1 := ProcessSocket(s0.rcv, b, false, net);
    var s2 := ProcessSocket(s1.rcv, c, false, net);
    var s3 := ProcessSocket(s2.rcv, wb, false, net);
    assert script[0..] == script;
    DrainUnfold(rcv, script, 0, true, net);
    DrainUnfold(s0.rcv, script, 1, false, net);
    DrainUnfold(s1.rcv, script, 2, false, net);
    DrainUnfold(s2.rcv, script, 3, false, net);
    assert s0.keepDraining && s1.keepDraining && s2.keepDraining && !s3.keepDraining;
    assert s0.report.None? && s1.report.None? && s2.report.None? && s3.report.None?;
    var d3 := Drained(s3.rcv, StepTrace(false, s3), true);
    var d2 := Prefixed(StepTrace(false, s2), d3);
    var d1 := Prefixed(StepTrace(false, s1), d2);
    assert Drain(rcv, script, true, net) == Prefixed(StepTrace(true, s0), d1);
  }

  /** A refused first read whose offender resolves reports that address as
      a missing port; the drain then reads again, and stops on an empty
      buffer without a further report. */
  lemma RefusedFirstReadWithOffender(fd: int, sock: int, rcv: Receiver, net: Interface,
                                     refused: ReadOutcome, wb: ReadOutcome, offender: Address)
    requires fd != sock
    requires refused.len < 0 && refused.err == ECONNREFUSED && refused.closedPort == Some(offender)
    requires IsWouldBlock(wb)
    ensures var n := HandleInputNotification(fd, sock, None, [refused, wb], rcv, net);
            && n.complete
            && n.trace.attempts == [true, false]
            && n.trace.deliveries == []
            && n.trace.reports == [Report(NoSuchPort, Some(offender))]
  {
    var script := [refused, wb];
    var s0 := ProcessSocket(rcv, refused, true, net);
    var s1 := ProcessSocket(s0.rcv, wb, false, net);
    DrainUnfold(rcv, script, 0, true, net);
    DrainUnfold(s0.rcv, script, 1, false, net);
    assert script[0..] == script && script[1] == wb;
    assert s0.keepDraining && !s1.keepDraining;
    assert Drain(s0.rcv, script[1..], false, net) == Drained(s1.rcv, StepTrace(false, s1), true);
  }

  /** The same, but `getClosedPort` fails: a general network report. */
  lemma RefusedFirstReadUnresolved(fd: int, sock: int, rcv: Receiver, net: Interface,
                                   refused: ReadOutcome, wb: ReadOutcome)
    requires fd != sock
    requires refused.len < 0 && refused.err == ECONNREFUSED && refused.closedPort.None?
    requires IsWouldBlock(wb)
    ensures var n := HandleInputNotification(fd, sock, None, [refused, wb], rcv, net);
            && n.complete
            && n.trace.attempts == [true, false]
            && n.trace.deliveries == []
            && n.trace.reports == [Report(GeneralNetwork, None)]
  {
    var script := [refused, wb];
    var s0 := ProcessSocket(rcv, refused, true, net);
    var s1 := ProcessSocket(s0.rcv, wb, false, net);
    DrainUnfold(rcv, script, 0, true, net);
    DrainUnfold(s0.rcv, script, 1, false, net);
    assert script[0..] == script && script[1] == wb;
    assert s0.keepDraining && !s1.keepDraining;
    assert Drain(s0.rcv, script[1..], false, net) == Drained(s1.rcv, StepTrace(false, s1), true);
  }

  /** A zero-length read in the middle of a drain is reported but does not
      end it: the packet after it is still read and dispatched. */
  lemma ZeroLengthReadKeepsDraining(fd: int, sock: int, rcv: Receiver, net: Interface,
                                    zero: ReadOutcome, data: ReadOutcome, wb: ReadOutcome)
    requires fd != sock && net.channel.None?
    requires zero.len == 0 && data.len > 0 && IsWouldBlock(wb)
    ensures var n := HandleInputNotification(fd, sock, None, [data, zero, data, wb], rcv, net);
            && n.complete
            && |n.trace.attempts| == 4
            && |n.trace.deliveries| == 2
            && n.trace.reports == [Report(GeneralNetwork, None)]
  {
    var script := [data, zero, data, wb];
    var s0 := ProcessSocket(rcv, data, true, net);
    var s1 := ProcessSocket(s0.rcv, zero, false, net);
    var s2 := ProcessSocket(s1.rcv, data, false, net);
    var s3 := ProcessSocket(s2.rcv, wb, false, net);
    assert script[0..] == script;
    DrainUnfold(rcv, script, 0, true, net);
    DrainUnfold(s0.rcv, script, 1, false, net);
    DrainUnfold(s1.rcv, script, 2, false, net);
    DrainUnfold(s2.rcv, script, 3, false, net);
    assert s0.keepDraining && s1.keepDraining && s2.keepDraining && !s3.keepDraining;
    assert s0.report.None? && s2.report.None? && s3.report.None?;
    var d3 := Drained(s3.rcv, StepTrace(false, s3), true);
    var d2 := Prefixed(StepTrace(false, s2), d3);
    var d1 := Prefixed(StepTrace(false, s1), d2);
    assert Drain(rcv, script, true, net) == Prefixed(StepTrace(true, s0), d1);
  }
}
