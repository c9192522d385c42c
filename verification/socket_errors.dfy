/** The read-failure classifier `PacketReceiver::checkSocketErrors`, unix
    (non-console) variant. Given the failed read's length, the `errno` it left,
    the receiver's `expectingPacket` flag and what `getClosedPort` would yield,
    it decides whether draining goes on and what, if anything, is reported. */
module SocketErrors {
  import opened NetTypes

  /** What one call of the classifier decides: its boolean return value and
      the report it hands to the error reporter, if any. */
  datatype Verdict = Verdict(keepDraining: bool, report: Option<Report>)

  /** The error codes the unix branch treats as "no such port" candidates. */
  predicate IsPortError(err: Errno)
  {
    err == EAGAIN || err == ECONNREFUSED || err == EHOSTUNREACH
  }

  /** A three-outcome view of the classifier: retry, peer unreachable, fatal. */
  datatype ErrorOutcome = RetryLater | PeerUnreachable(offender: Address) | FatalGeneral

  /** Reference classification. `laterRead` is true for every read after the
      first of a notification; only then is an empty buffer a normal end. A
      zero-length read is fatal whatever the read; a refused, unreachable or
      unexpected-empty read is a peer failure when the offending address can
      be resolved, and fatal otherwise. */
  function Classify(len: int, err: Errno, laterRead: bool, closedPort: Option<Address>): ErrorOutcome
  {
    if len == 0 then FatalGeneral
    else if err == EAGAIN then
      (if laterRead then RetryLater
       else if closedPort.Some? then PeerUnreachable(closedPort.value)
       else FatalGeneral)
    else if (err == ECONNREFUSED || err == EHOSTUNREACH) && closedPort.Some? then
      PeerUnreachable(closedPort.value)
    else FatalGeneral
  }

  /** How an outcome surfaces: a retry ends the drain silently; the other two
      outcomes are reported and the drain goes on. */
  function Surface(o: ErrorOutcome): Verdict
  {
    match o
    case RetryLater => Verdict(false, None)
    case PeerUnreachable(a) => Verdict(true, Some(Report(NoSuchPort, Some(a))))
    case FatalGeneral => Verdict(true, Some(Report(GeneralNetwork, None)))
  }

  /** `checkSocketErrors(len, expectingPacket)` on unix. */
  function CheckSocketErrors(len: int, err: Errno, expectingPacket: bool, closedPort: Option<Address>): (r: Verdict)
    // the drain stops exactly on an empty buffer at a read that did not expect a packet
    ensures !r.keepDraining <==> len != 0 && err == EAGAIN && !expectingPacket
    // every call that returns true reports exactly once; the one that returns false reports nothing
    ensures r.keepDraining <==> r.report.Some?
    // a zero-length read is a general network error whatever the flag
    ensures len == 0 ==> r == Verdict(true, Some(Report(GeneralNetwork, None)))
    // refused, unreachable, or empty when a packet was expected: the offender if known, else general
    ensures len != 0 && IsPortError(err) && (err != EAGAIN || expectingPacket) ==>
              r.keepDraining &&
              r.report == Some(if closedPort.Some? then Report(NoSuchPort, closedPort)
                               else Report(GeneralNetwork, None))
    // any other error code is a general network error
    ensures len != 0 && !IsPortError(err) ==> r == Verdict(true, Some(Report(GeneralNetwork, None)))
    // agrees with the three-outcome view, whose "later read" is !expectingPacket
    ensures r == Surface(Classify(len, err, !expectingPacket, closedPort))
  {
    if len == 0 then
      Verdict(true, Some(Report(GeneralNetwork, None)))
    else if err == EAGAIN && !expectingPacket then
      Verdict(false, None)
    else if IsPortError(err) && closedPort.Some? then
      Verdict(true, Some(Report(NoSuchPort, closedPort)))
    else
      Verdict(true, Some(Report(GeneralNetwork, None)))
  }
}
