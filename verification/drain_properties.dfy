/** Properties of a whole drain: where it stops, how many reads, dispatches
    and reports it makes, and that dispatched packets are never reused. */
module DrainProperties {
  import opened NetTypes
  import opened SocketErrors
  import opened Dispatch
  import opened PacketReceiver

  /** The read at index `i` ends the drain: the buffer was empty and the read
      did not expect a packet (every read but a `true`-flagged first one). */
  predicate StopsAt(script: seq<ReadOutcome>, expectingPacket: bool, i: int)
    requires 0 <= i < |script|
  {
    IsWouldBlock(script[i]) && (i > 0 || !expectingPacket)
  }

  /** The drain ends within the script exactly when some read stops it, and
      then it has made the reads up to and including the first such read. */
  lemma {:induction false} DrainStopsAtFirstStop(rcv: Receiver, script: seq<ReadOutcome>, expectingPacket: bool, net: Interface)
    ensures var r := Drain(rcv, script, expectingPacket, net);
            && (r.complete <==> exists i :: 0 <= i < |script| && StopsAt(script, expectingPacket, i))
            && (r.complete ==> StopsAt(script, expectingPacket, |r.trace.attempts| - 1))
            && (r.complete ==> forall j :: 0 <= j < |r.trace.attempts| - 1 ==> !StopsAt(script, expectingPacket, j))
    decreases |script|
  {
    if |script| > 0 {
      var s := ProcessSocket(rcv, script[0], expectingPacket, net);
      DrainUnfold(rcv, script, 0, expectingPacket, net);
      assert script[0..] == script;
      assert s.keepDraining <==> !StopsAt(script, expectingPacket, 0);
      if s.keepDraining {
        var tail := script[1..];
        var rest := Drain(s.rcv, tail, false, net);
        DrainStopsAtFirstStop(s.rcv, tail, false, net);
        forall j | 0 <= j < |tail|
          ensures StopsAt(tail, false, j) <==> StopsAt(script, expectingPacket, j + 1)
        {
          assert tail[j] == script[j + 1];
        }
        var r := Drain(rcv, script, expectingPacket, net);
        assert |r.trace.attempts| == 1 + |rest.trace.attempts|;
        if rest.complete {
          var k :| 0 <= k < |tail| && StopsAt(tail, false, k);
          assert StopsAt(script, expectingPacket, k + 1);
          forall j | 0 <= j < |r.trace.attempts| - 1
            ensures !StopsAt(script, expectingPacket, j)
          {
            if j > 0 {
              assert !StopsAt(tail, false, j - 1);
            }
          }
        } else {
          forall i | 0 <= i < |script|
            ensures !StopsAt(script, expectingPacket, i)
          {
            if i > 0 {
              assert !StopsAt(tail, false, i - 1);
            }
          }
        }
      }
    }
  }

  /** A notification on a peer socket reads up to and including the first
      would-block at a position after the first, and only the first read
      passes `expectingPacket = true`. */
  lemma ReadCountIsFirstLaterWouldBlock(fd: int, sock: int, accepted: Option<nat>, script: seq<ReadOutcome>,
                                        rcv: Receiver, net: Interface, k: nat)
    requires fd != sock
    requires 1 <= k < |script| && IsWouldBlock(script[k])
    requires forall j :: 1 <= j < k ==> !IsWouldBlock(script[j])
    ensures var n := HandleInputNotification(fd, sock, accepted, script, rcv, net);
            && n.complete
            && |n.trace.attempts| == k + 1
            && n.trace.attempts[0]
            && forall i :: 1 <= i <= k ==> !n.trace.attempts[i]
  {
    var r := Drain(rcv, script, true, net);
    DrainStopsAtFirstStop(rcv, script, true, net);
    assert StopsAt(script, true, k);
    var m := |r.trace.attempts| - 1;
    assert StopsAt(script, true, m);
    assert IsWouldBlock(script[m]) && m >= 1;
    assert m >= k;
    assert m <= k;
  }

  /** Without a would-block after the first read the drain never ends: it
      consumes the whole script and the real loop would go on reading. */
  lemma NoLaterWouldBlockReadsEverything(fd: int, sock: int, accepted: Option<nat>, script: seq<ReadOutcome>,
                                         rcv: Receiver, net: Interface)
    requires fd != sock
    requires forall j :: 1 <= j < |script| ==> !IsWouldBlock(script[j])
    ensures var n := HandleInputNotification(fd, sock, accepted, script, rcv, net);
            !n.complete && |n.trace.attempts| == |script|
  {
    DrainStopsAtFirstStop(rcv, script, true, net);
    forall i | 0 <= i < |script|
      ensures !StopsAt(script, true, i)
    {
    }
  }

  /** Number of dispatches whose result is not a success. */
  function CountFailures(ds: seq<Delivery>): (c: nat)
    ensures c <= |ds|
    ensures (forall i :: 0 <= i < |ds| ==> ds[i].reason == Success) ==> c == 0
  {
    if |ds| == 0 then 0
    else (if ds[0].reason != Success then 1 else 0) + CountFailures(ds[1..])
  }

  /** The lengths of the successful reads of a script, in order. */
  function ProductiveLengths(script: seq<ReadOutcome>): (ls: seq<nat>)
    ensures |ls| <= |script|
  {
    if |script| == 0 then []
    else (if script[0].len > 0 then [script[0].len as nat] else []) + ProductiveLengths(script[1..])
  }

  /** The sizes of dispatched packets, in order. */
  function Sizes(ds: seq<Delivery>): (ss: seq<nat>)
    ensures |ss| == |ds|
    ensures forall i :: 0 <= i < |ds| ==> ss[i] == ds[i].packet.size
  {
    if |ds| == 0 then [] else [ds[0].packet.size] + Sizes(ds[1..])
  }

  /** The failures among one optional dispatch followed by more. */
  lemma CountFailuresCons(d: Option<Delivery>, rest: seq<Delivery>)
    ensures CountFailures(Elements(d) + rest)
              == (if d.Some? && d.value.reason != Success then 1 else 0) + CountFailures(rest)
  {
    if d.Some? {
      assert (Elements(d) + rest)[1..] == rest;
    } else {
      assert Elements(d) + rest == rest;
    }
  }

  /** Over a whole drain, reports plus dispatches plus the silent read that
      ends it (if it ended) equal the reads made plus, on a verbose
      interface, the failed dispatches. */
  lemma {:induction false} DrainReportCount(rcv: Receiver, script: seq<ReadOutcome>, expectingPacket: bool, net: Interface)
    ensures var r := Drain(rcv, script, expectingPacket, net);
            |r.trace.reports| + |r.trace.deliveries| + (if r.complete then 1 else 0)
              == |r.trace.attempts| + (if net.verbose then CountFailures(r.trace.deliveries) else 0)
    decreases |script|
  {
    if |script| > 0 {
      var s := ProcessSocket(rcv, script[0], expectingPacket, net);
      DrainUnfold(rcv, script, 0, expectingPacket, net);
      assert script[0..] == script;
      if s.keepDraining {
        var rest := Drain(s.rcv, script[1..], false, net);
        DrainReportCount(s.rcv, script[1..], false, net);
        CountFailuresCons(s.delivery, rest.trace.deliveries);
      }
    }
  }

  /** The sizes of one optional dispatch followed by more. */
  lemma SizesCons(d: Option<Delivery>, rest: seq<Delivery>)
    ensures Sizes(Elements(d) + rest)
              == (if d.Some? then [d.value.packet.size] else []) + Sizes(rest)
  {
  }

  /** The productive lengths of a non-empty prefix of a script, split at its
      first read. */
  lemma ProductivePrefix(script: seq<ReadOutcome>, n: nat)
    requires 1 <= n <= |script|
    ensures ProductiveLengths(script[..n])
              == (if script[0].len > 0 then [script[0].len as nat] else []) + ProductiveLengths(script[1..][..n - 1])
  {
    assert script[..n][0] == script[0];
    assert script[..n][1..] == script[1..][..n - 1];
  }

  /** The dispatched packets are exactly the successful reads among those
      the drain made, with their lengths, in order. */
  lemma {:induction false} DrainDispatchesProductiveReads(rcv: Receiver, script: seq<ReadOutcome>, expectingPacket: bool,
                                                          net: Interface)
    ensures var r := Drain(rcv, script, expectingPacket, net);
            Sizes(r.trace.deliveries) == ProductiveLengths(script[..|r.trace.attempts|])
    decreases |script|
  {
    if |script| > 0 {
      var s := ProcessSocket(rcv, script[0], expectingPacket, net);
      DrainUnfold(rcv, script, 0, expectingPacket, net);
      assert script[0..] == script;
      var r := Drain(rcv, script, expectingPacket, net);
      var n := |r.trace.attempts|;
      ProductivePrefix(script, n);
      var head := if script[0].len > 0 then [script[0].len as nat] else [];
      assert s.delivery.Some? <==> script[0].len > 0;
      assert s.delivery.Some? ==> s.delivery.value.packet.size == script[0].len;
      if !s.keepDraining {
        assert r.trace.deliveries == [];
        assert script[1..][..n - 1] == [];
      } else {
        var rest := Drain(s.rcv, script[1..], false, net);
        assert r.trace.deliveries == Elements(s.delivery) + rest.trace.deliveries;
        assert n - 1 == |rest.trace.attempts|;
        DrainDispatchesProductiveReads(s.rcv, script[1..], false, net);
        SizesCons(s.delivery, rest.trace.deliveries);
      }
    }
  }

  /** Packet identities in `[lo, hi)`, strictly increasing. */
  predicate FreshRun(ds: seq<Delivery>, lo: nat, hi: nat)
  {
    && (forall i :: 0 <= i < |ds| ==> lo <= ds[i].packet.id < hi)
    && (forall i, j :: 0 <= i < j < |ds| ==> ds[i].packet.id < ds[j].packet.id)
  }

  /** One optional fresh packet below `mid` followed by a fresh run from
      `mid` is a fresh run. */
  lemma FreshRunCons(e: seq<Delivery>, rest: seq<Delivery>, lo: nat, mid: nat, hi: nat)
    requires |e| <= 1 && lo <= mid <= hi
    requires |e| == 1 ==> lo <= e[0].packet.id < mid
    requires FreshRun(rest, mid, hi)
    ensures FreshRun(e + rest, lo, hi)
  {
  }

  /** Every packet the drain dispatches is a fresh one: the first is the
      standing packet it started with, identities strictly increase, and the
      final standing packet is none of them. */
  lemma {:induction false} DrainFreshPackets(rcv: Receiver, script: seq<ReadOutcome>, expectingPacket: bool, net: Interface)
    requires rcv.Valid()
    ensures var r := Drain(rcv, script, expectingPacket, net);
            && r.rcv.Valid()
            && rcv.next <= r.rcv.next
            && (|r.trace.deliveries| > 0 ==> r.trace.deliveries[0].packet.id == rcv.next)
            && FreshRun(r.trace.deliveries, rcv.next, r.rcv.next)
    decreases |script|
  {
    if |script| > 0 {
      var s := ProcessSocket(rcv, script[0], expectingPacket, net);
      DrainUnfold(rcv, script, 0, expectingPacket, net);
      assert script[0..] == script;
      if s.keepDraining {
        var rest := Drain(s.rcv, script[1..], false, net);
        DrainFreshPackets(s.rcv, script[1..], false, net);
        FreshRunCons(Elements(s.delivery), rest.trace.deliveries, rcv.next, s.rcv.next, rest.rcv.next);
      }
    }
  }

  /** A packet on a socket with no channel always reaches the default
      handoff, succeeds, touches no accounting and is never reported. */
  lemma NoChannelNoAccounting(fd: int, sock: int, accepted: Option<nat>, script: seq<ReadOutcome>,
                              rcv: Receiver, net: Interface)
    requires fd != sock && net.channel.None?
    ensures var n := HandleInputNotification(fd, sock, accepted, script, rcv, net);
            && (forall i :: 0 <= i < |n.trace.deliveries| ==>
                  var d := n.trace.deliveries[i];
                  d.route == DefaultHandoff && d.reason == Success && d.accounted.None?)
            && |n.trace.reports| + |n.trace.deliveries| + (if n.complete then 1 else 0) == |n.trace.attempts|
  {
    DrainReportCount(rcv, script, true, net);
  }

  /** A packet on a channel with a filter never reaches the default handoff;
      the filter's result stands, and the channel is told its size. */
  lemma FilterIsAuthoritative(fd: int, sock: int, accepted: Option<nat>, script: seq<ReadOutcome>,
                              rcv: Receiver, net: Interface, c: Channel, f: Filter)
    requires fd != sock && net.channel == Some(c) && c.filter == Some(f)
    ensures var n := HandleInputNotification(fd, sock, accepted, script, rcv, net);
            forall i :: 0 <= i < |n.trace.deliveries| ==>
              var d := n.trace.deliveries[i];
              && d.route == ViaFilter
              && d.reason == f.recv(d.packet)
              && d.accounted == Some(Accounting(c.id, d.packet.size))
  {
  }

  /** A would-block on the first read is reported (as a missing port when
      the offender resolves) and the drain goes on. */
  lemma FirstReadWouldBlockIsReported(fd: int, sock: int, accepted: Option<nat>, script: seq<ReadOutcome>,
                                      rcv: Receiver, net: Interface)
    requires fd != sock && |script| > 0 && IsWouldBlock(script[0])
    ensures var n := HandleInputNotification(fd, sock, accepted, script, rcv, net);
            && |n.trace.reports| > 0
            && n.trace.reports[0] == (if script[0].closedPort.Some? then Report(NoSuchPort, script[0].closedPort)
                                      else Report(GeneralNetwork, None))
            && (|script| > 1 ==> |n.trace.attempts| > 1)
  {
  }
}
