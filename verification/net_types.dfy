/** Values the packet receiver exchanges with its collaborators: addresses,
    reasons, error codes, reports to the error reporter, packets, channels and
    filters. Everything here is plain data; the collaborators themselves are
    modelled as inputs and recorded events. */
module NetTypes {

  datatype Option<+T> = None | Some(value: T)

  /** The elements of an optional value, as a sequence of length 0 or 1. */
  function Elements<T>(o: Option<T>): (s: seq<T>)
    ensures |s| <= 1
    ensures |s| == 1 <==> o.Some?
    ensures o.Some? ==> s[0] == o.value
  {
    match o
    case None => []
    case Some(v) => [v]
  }

  /** A peer endpoint's address; the model only needs its identity. */
  datatype Address = Address(ip: nat, port: nat)

  /** The outcome codes the receiver produces or relays. `OtherReason` stands
      for any further code a filter may return. */
  datatype Reason =
    | Success          // REASON_SUCCESS
    | NoSuchPort       // REASON_NO_SUCH_PORT
    | GeneralNetwork   // REASON_GENERAL_NETWORK
    | OtherReason(code: int)

  /** The value of `errno` after a failed read (EWOULDBLOCK is EAGAIN). */
  datatype Errno = EAGAIN | ECONNREFUSED | EHOSTUNREACH | OtherErrno(code: int)

  /** One call of the error reporter's `reportException`, with or without an
      address attached. */
  datatype Report = Report(reason: Reason, addr: Option<Address>)

  /** A received packet: a fresh identity and the number of bytes it holds. */
  datatype Packet = Packet(id: nat, size: nat)

  /** A channel's packet filter, opaque: what it returns for each packet. */
  datatype Filter = Filter(recv: Packet -> Reason)

  /** Whether a channel is an internal (server-to-server) one, `INTERNAL`,
      or one of the source's other, external kinds; the receiver only ever
      creates internal channels. */
  datatype ChannelKind = Internal | External

  /** A channel as the receiver sees it: an accounting identity and an
      optional filter. */
  datatype Channel = Channel(id: nat, filter: Option<Filter>)
}
