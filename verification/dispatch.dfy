/** The dispatcher `PacketReceiver::processPacket` / `processFilteredPacket`:
    route one received packet through the owning channel's filter, or to the
    default handoff, and update the channel's receive accounting. */
module Dispatch {
  import opened NetTypes

  /** Where the packet went: into the channel's filter, or to
      `processFilteredPacket`. */
  datatype Route = ViaFilter | DefaultHandoff

  /** One call of the channel's `onPacketReceived(totalSize)`. */
  datatype Accounting = Accounting(channel: nat, bytes: nat)

  /** Everything one dispatch did with a packet. */
  datatype Delivery = Delivery(packet: Packet, reason: Reason, route: Route, accounted: Option<Accounting>)

  /** The default handoff of the base receiver: accept the packet. */
  function ProcessFilteredPacket(p: Packet): Reason
  {
    Success
  }

  /** `processPacket(p)`, with `channel` the result of `findChannel` for the
      receiver's socket. */
  function ProcessPacket(p: Packet, channel: Option<Channel>): (d: Delivery)
    ensures d.packet == p
    // no channel: the default handoff's success, and no accounting at all
    ensures channel.None? ==> d.route == DefaultHandoff && d.reason == Success && d.accounted.None?
    // a channel is told about the packet's size exactly once
    ensures channel.Some? ==> d.accounted == Some(Accounting(channel.value.id, p.size))
    // a filter's answer is authoritative and the default handoff is skipped
    ensures d.route == ViaFilter <==> channel.Some? && channel.value.filter.Some?
    ensures d.route == ViaFilter ==> d.reason == channel.value.filter.value.recv(p)
    ensures d.route == DefaultHandoff ==> d.reason == Success
  {
    match channel
    case None =>
      Delivery(p, ProcessFilteredPacket(p), DefaultHandoff, None)
    case Some(c) =>
      var acct := Some(Accounting(c.id, p.size));
      match c.filter
      case Some(f) => Delivery(p, f.recv(p), ViaFilter, acct)
      case None => Delivery(p, ProcessFilteredPacket(p), DefaultHandoff, acct)
  }

  /** The report `processSocket` makes about a dispatch result: a non-success
      result is reported, with the socket's address, only on a verbose
      interface. */
  function FailureReport(reason: Reason, verbose: bool, addr: Address): (r: Option<Report>)
    ensures r.Some? <==> reason != Success && verbose
    ensures r.Some? ==> r.value.reason == reason && r.value.addr == Some(addr)
  {
    if reason != Success && verbose then Some(Report(reason, Some(addr))) else None
  }
}
