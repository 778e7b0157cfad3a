/** The relay client between WireGuard and the relay, and packets end to end through two clients. */
module RelayClients {
  import opened Text
  import opened Frames
  import opened Routing

  /** What one of the two sockets of a client yields next. */
  datatype Read = FromWireGuard(peer: Addr, packet: Bytes) | FromRelay(datagram: Bytes) | ReadError

  datatype Delivery = Delivery(peer: Addr, packet: Bytes)

  /** The address WireGuard last sent from. */
  function Learned(start: Option<Addr>, inputs: seq<Read>): Option<Addr> {
    if inputs == [] then start
    else
      var last := inputs[|inputs| - 1];
      if last.FromWireGuard? then Some(last.peer) else Learned(start, inputs[..|inputs| - 1])
  }

  /** What is sent to the relay. */
  function Sent(id: Bytes, inputs: seq<Read>): seq<Bytes> {
    if inputs == [] then []
    else
      var last := inputs[|inputs| - 1];
      Sent(id, inputs[..|inputs| - 1]) + if last.FromWireGuard? then [Wrap(id, last.packet)] else []
  }

  /** What is handed to WireGuard: every datagram, as it came, once WireGuard's address is known. */
  function Delivered(start: Option<Addr>, inputs: seq<Read>): seq<Delivery> {
    if inputs == [] then []
    else
      var before, last := inputs[..|inputs| - 1], inputs[|inputs| - 1];
      Delivered(start, before)
      + if last.FromRelay? && Learned(start, before).Some?
        then [Delivery(Learned(start, before).value, last.datagram)] else []
  }

  class RelayClient {
    const tokenID: Bytes
    var wgPeer: Option<Addr>

    constructor (h: Hash, token: string)
      ensures tokenID == TokenID(h, token) && wgPeer == None
    {
      tokenID := TokenID(h, token);
      wgPeer := None;
    }

    /** Both read loops, over the reads of the two sockets in the order they happen. */
    method Run(inputs: seq<Read>) returns (toRelay: seq<Bytes>, toWireGuard: seq<Delivery>)
      modifies this
      ensures wgPeer == Learned(old(wgPeer), inputs)
      ensures toRelay == Sent(tokenID, inputs)
      ensures toWireGuard == Delivered(old(wgPeer), inputs)
    {
      toRelay, toWireGuard := [], [];
      var header := MAGIC;
      header := header + tokenID;
      for i := 0 to |inputs|
        invariant wgPeer == Learned(old(wgPeer), inputs[..i])
        invariant toRelay == Sent(tokenID, inputs[..i])
        invariant toWireGuard == Delivered(old(wgPeer), inputs[..i])
      {
        assert inputs[..i + 1][..i] == inputs[..i];
        match inputs[i]
        case ReadError =>
        case FromWireGuard(peer, packet) =>
          wgPeer := Some(peer);
          var pkt := header;
          pkt := pkt + packet;
          toRelay := toRelay + [pkt];
        case FromRelay(datagram) =>
          if wgPeer.Some? {
            toWireGuard := toWireGuard + [Delivery(wgPeer.value, datagram)];
          }
      }
      assert inputs[..|inputs|] == inputs;
    }
  }

  // ---- Streams ----

  /** What a client's WireGuard sends, in order. */
  function Packets(inputs: seq<Read>): seq<Bytes> {
    if inputs == [] then []
    else
      var last := inputs[|inputs| - 1];
      Packets(inputs[..|inputs| - 1]) + if last.FromWireGuard? then [last.packet] else []
  }

  /** The relay sends on each of these datagrams, and the other client inputs them. */
  function Arriving(datagrams: seq<Bytes>): (r: seq<Read>)
    ensures |r| == |datagrams|
  {
    if datagrams == [] then []
    else Arriving(datagrams[..|datagrams| - 1]) + [FromRelay(Forwarded(datagrams[|datagrams| - 1]))]
  }

  function Addressed(peer: Addr, packets: seq<Bytes>): seq<Delivery> {
    if packets == [] then []
    else Addressed(peer, packets[..|packets| - 1]) + [Delivery(peer, packets[|packets| - 1])]
  }

  lemma {:induction false} SentForwarded(id: Bytes, inputs: seq<Read>, peer: Addr)
    requires |id| == TOKEN_ID_LEN
    ensures Learned(Some(peer), Arriving(Sent(id, inputs))) == Some(peer)
    ensures Delivered(Some(peer), Arriving(Sent(id, inputs))) == Addressed(peer, Packets(inputs))
    decreases |inputs|
  {
    if inputs != [] {
      var before, last := inputs[..|inputs| - 1], inputs[|inputs| - 1];
      SentForwarded(id, before, peer);
      if last.FromWireGuard? {
        ParseWrap(id, last.packet);
        OneMoreDelivered(Sent(id, before), Wrap(id, last.packet), peer);
        OneMoreAddressed(peer, Packets(before), last.packet);
      } else {
        assert Sent(id, inputs) == Sent(id, before);
        assert Packets(inputs) == Packets(before);
      }
    }
  }

  lemma OneMoreDelivered(datagrams: seq<Bytes>, d: Bytes, peer: Addr)
    requires Learned(Some(peer), Arriving(datagrams)) == Some(peer)
    ensures Learned(Some(peer), Arriving(datagrams + [d])) == Some(peer)
    ensures Delivered(Some(peer), Arriving(datagrams + [d]))
            == Delivered(Some(peer), Arriving(datagrams)) + [Delivery(peer, Forwarded(d))]
  {
    assert (datagrams + [d])[..|datagrams|] == datagrams;
    var arriving := Arriving(datagrams);
    assert (arriving + [FromRelay(Forwarded(d))])[..|arriving|] == arriving;
  }

  lemma OneMoreAddressed(peer: Addr, packets: seq<Bytes>, p: Bytes)
    ensures Addressed(peer, packets + [p]) == Addressed(peer, packets) + [Delivery(peer, p)]
  {
    assert (packets + [p])[..|packets|] == packets;
  }

  /** What WireGuard's address is known to be: where its last packet came from, or else what was known before. */
  lemma {:induction false} LearnedLast(start: Option<Addr>, inputs: seq<Read>)
    ensures (forall i :: 0 <= i < |inputs| ==> !inputs[i].FromWireGuard?) ==> Learned(start, inputs) == start
    ensures forall i :: 0 <= i < |inputs| && inputs[i].FromWireGuard?
                        && (forall j :: i < j < |inputs| ==> !inputs[j].FromWireGuard?) ==>
                          Learned(start, inputs) == Some(inputs[i].peer)
  {
    if inputs != [] {
      LearnedLast(start, inputs[..|inputs| - 1]);
    }
  }

  /** A datagram from the relay is handed over as it is, to where WireGuard's last packet came from. */
  lemma HandedToLastPeer(inputs: seq<Read>, d: Bytes, i: nat)
    requires i < |inputs| && inputs[i].FromWireGuard?
    requires forall j :: i < j < |inputs| ==> !inputs[j].FromWireGuard?
    ensures forall start :: Delivered(start, inputs + [FromRelay(d)])
                            == Delivered(start, inputs) + [Delivery(inputs[i].peer, d)]
  {
    assert (inputs + [FromRelay(d)])[..|inputs|] == inputs;
    forall start ensures Learned(start, inputs) == Some(inputs[i].peer) {
      LearnedLast(start, inputs);
    }
  }

  /** A client whose WireGuard has not sent anything yet hands nothing over. */
  lemma {:induction false} NothingBeforeLearning(datagrams: seq<Bytes>)
    ensures Learned(None, Arriving(datagrams)) == None && Delivered(None, Arriving(datagrams)) == []
  {
    if datagrams != [] {
      NothingBeforeLearning(datagrams[..|datagrams| - 1]);
      var arriving := Arriving(datagrams[..|datagrams| - 1]);
      assert Arriving(datagrams)[..|arriving|] == arriving;
    }
  }

  /** Two relay clients of one session, with a relay between them that sends every datagram on: what one side's
      WireGuard sends is what the other side's WireGuard receives, byte for byte and in order, exactly when the
      receiving client knows where its WireGuard is (or nothing was sent). */
  lemma ClientToClientIff(id: Bytes, inputs: seq<Read>, known: Option<Addr>, peer: Addr)
    requires |id| == TOKEN_ID_LEN && (known.Some? ==> known.value == peer)
    ensures Delivered(known, Arriving(Sent(id, inputs))) == Addressed(peer, Packets(inputs)) <==>
              known.Some? || Packets(inputs) == []
  {
    if known.Some? {
      SentForwarded(id, inputs, peer);
    } else {
      NothingBeforeLearning(Sent(id, inputs));
    }
  }

  /** The relay sends a client's datagram to the other client of the session, or to the raw renter, without its
      header: for each direction, where it goes and that it is the packet. */
  lemma FramingEndToEnd(s: Session, src: Addr, now: int, packet: Bytes)
    requires |s.tokenID| == TOKEN_ID_LEN && PeersOk(s) && s.peerA.Some?
    requires s.peerB.Some? || s.renterAddr.Some?
    ensures var datagram := Wrap(s.tokenID, packet);
            && Parse(datagram) == Frame(s.tokenID, packet)
            && Forwarded(datagram) == packet
            && (Some(src) == s.peerA && s.rawConn.Some? && s.renterAddr.Some? ==>
                  SlowPath(s, src, now).route == ViaRaw(s.rawConn.value, s.renterAddr.value))
            && (Some(src) == s.peerA && s.peerB.Some? && !(s.rawConn.Some? && s.renterAddr.Some?) ==>
                  SlowPath(s, src, now).route == ViaMain(s.peerB.value))
            && (Some(src) == s.peerB ==> SlowPath(s, src, now).route == ViaMain(s.peerA.value))
  {
    ParseWrap(s.tokenID, packet);
  }

  /** On the way from a raw renter the provider's WireGuard receives the relay header as well: the
      relay adds one and no one removes it. */
  lemma RawRenterHeaderStays(s: Session, peer: Addr, packet: Bytes)
    requires |s.tokenID| == TOKEN_ID_LEN
    ensures Delivered(Some(peer), [FromRelay(RawInbound(s, packet))]) == [Delivery(peer, Header(s.tokenID) + packet)]
    ensures Delivered(Some(peer), [FromRelay(RawInbound(s, packet))]) != [Delivery(peer, packet)]
    ensures Parse(RawInbound(s, packet)) == Frame(s.tokenID, packet)
  {
    ParseWrap(s.tokenID, packet);
    var inputs := [FromRelay(RawInbound(s, packet))];
    assert inputs[..0] == [];
    assert |RawInbound(s, packet)| == HEADER_LEN + |packet|;
  }
}
