/** Subsequences: what is left of a sequence when some elements are dropped and the rest keep their order. */
module Subsequences {
  ghost predicate Subsequence<T>(a: seq<T>, b: seq<T>)
    decreases |b|
  {
    || a == []
    || (b != [] && a[|a| - 1] == b[|b| - 1] && Subsequence(a[..|a| - 1], b[..|b| - 1]))
    || (b != [] && Subsequence(a, b[..|b| - 1]))
  }

  lemma OneDropped<T>(a: seq<T>, b: seq<T>, x: T)
    requires Subsequence(a, b)
    ensures Subsequence(a, b + [x])
  {
    assert (b + [x])[..|b|] == b;
  }

  lemma OneKept<T>(a: seq<T>, b: seq<T>, x: T)
    requires Subsequence(a, b)
    ensures Subsequence(a + [x], b + [x])
  {
    assert (b + [x])[..|b|] == b && (a + [x])[..|a|] == a;
  }

  lemma {:induction false} OneFewer<T>(a: seq<T>, x: T, b: seq<T>)
    requires Subsequence(a + [x], b)
    ensures Subsequence(a, b)
    decreases |b|
  {
    var front := b[..|b| - 1];
    assert b == front + [b[|b| - 1]] && (a + [x])[..|a|] == a;
    if !Subsequence(a, front) {
      OneFewer(a, x, front);
    }
    OneDropped(a, front, b[|b| - 1]);
  }

  /** A step of a loop that has `was` written or in hand, reads `read`, and has `now` written or in hand after it: all
      of it, or all but the one element in hand. */
  ghost predicate Progress<T>(was: seq<T>, read: seq<T>, now: seq<T>) {
    |read| <= 1 && (now == was + read || (was != [] && read == [] && now == was[..|was| - 1]) || now == was)
  }

  lemma OrderKept<T>(was: seq<T>, read: seq<T>, now: seq<T>, from: seq<T>)
    requires Subsequence(was, from) && Progress(was, read, now)
    ensures Subsequence(now, from + read)
  {
    if read == [] {
      assert from + read == from && was + read == was;
      if now != was {
        assert was == was[..|was| - 1] + [was[|was| - 1]];
        OneFewer(was[..|was| - 1], was[|was| - 1], from);
      }
    } else {
      assert read == [read[0]];
      OneKept(was, from, read[0]);
      OneDropped(was, from, read[0]);
    }
  }

  lemma {:induction false} Transitive<T>(a: seq<T>, b: seq<T>, c: seq<T>)
    requires Subsequence(a, b) && Subsequence(b, c)
    ensures Subsequence(a, c)
    decreases |c|, |b|
  {
    if a != [] && b != [] {
      var c' := c[..|c| - 1];
      if Subsequence(b, c') {
        Transitive(a, b, c');
      } else if Subsequence(a, b[..|b| - 1]) {
        Transitive(a, b[..|b| - 1], c');
      } else {
        Transitive(a[..|a| - 1], b[..|b| - 1], c');
      }
    }
  }
}

/** What the relay writes over whole runs: the packets it was sent, unchanged, in order and each at most once. */
module RelayPayload {
  import opened Text
  import opened Frames
  import opened Routing
  import opened RelayMachine
  import opened RelayClients
  import opened Subsequences

  datatype Packet = Packet(src: Addr, id: Bytes, payload: Bytes)

  /** The relay packet in a datagram, if it is one. */
  function Relayed(src: Addr, datagram: Bytes): seq<Packet> {
    match Parse(datagram)
    case NotRelayed => []
    case Frame(id, payload) => [Packet(src, id, payload)]
  }

  /** The relay packets read on the main socket, in order. */
  function Received(evs: seq<Event>): seq<Packet> {
    if evs == [] then []
    else
      var e := evs[|evs| - 1];
      Received(evs[..|evs| - 1]) + ReadBy(e)
  }

  function IDOf(objs: seq<Object>, o: nat): Bytes {
    if o < |objs| then objs[o].sess.tokenID else []
  }

  function MainWrite(objs: seq<Object>, w: Write): seq<Packet> {
    if w.origin.FromMain? then [Packet(w.src, IDOf(objs, w.obj), w.bytes)] else []
  }

  /** What the main loop has written, in order, with the token IDs of the sessions it was written for. */
  function MainSent(objs: seq<Object>, sent: seq<Write>): seq<Packet> {
    if sent == [] then []
    else MainSent(objs, sent[..|sent| - 1]) + MainWrite(objs, sent[|sent| - 1])
  }

  /** The packet the main loop has in hand. */
  function InHand(s: State): seq<Packet> {
    match s.main
    case Listening => []
    case Between(src, datagram, _) => Relayed(src, datagram)
    case Forwarding(w) => MainWrite(s.objs, w)
  }

  /** Every write belongs to an existing object; the main loop's are marked as its own, a raw loop's as its own. */
  ghost predicate WritesOwned(s: State) {
    && (forall i :: 0 <= i < |s.sent| ==> s.sent[i].obj < |s.objs|)
    && (s.main.Forwarding? ==> s.main.write.obj < |s.objs| && s.main.write.origin.FromMain?)
    && (forall o :: 0 <= o < |s.objs| && s.objs[o].raw.Sending? ==>
                      s.objs[o].raw.write.obj == o && s.objs[o].raw.write.origin.FromRaw?)
  }

  lemma WritesOwnedStep(h: Hash, s: State, e: Event)
    requires Enabled(s, e) && WritesOwned(s)
    ensures WritesOwned(Next(h, s, e))
  {
    StepFrame(h, s, e);
  }

  lemma {:induction false} AlwaysOwned(h: Hash, evs: seq<Event>)
    requires Exec(h, evs).Some?
    ensures WritesOwned(Exec(h, evs).value)
  {
    if evs != [] {
      var s, e := LastStep(h, evs);
      AlwaysOwned(h, evs[..|evs| - 1]);
      WritesOwnedStep(h, s, e);
    }
  }

  /** Existing objects keep their IDs. */
  ghost predicate SameIDs(a: seq<Object>, b: seq<Object>) {
    |a| <= |b| && forall o :: 0 <= o < |a| ==> b[o].sess.tokenID == a[o].sess.tokenID
  }

  lemma StepKeepsIDs(h: Hash, s: State, e: Event)
    requires Enabled(s, e)
    ensures SameIDs(s.objs, Next(h, s, e).objs)
  {
    StepFrame(h, s, e);
  }

  lemma {:induction false} SentKeepsIDs(a: seq<Object>, b: seq<Object>, sent: seq<Write>)
    requires SameIDs(a, b) && forall i :: 0 <= i < |sent| ==> sent[i].obj < |a|
    ensures MainSent(a, sent) == MainSent(b, sent)
  {
    if sent != [] {
      SentKeepsIDs(a, b, sent[..|sent| - 1]);
    }
  }

  /** What the main loop has written or has in hand, in order. */
  function MainDone(s: State): seq<Packet> {
    MainSent(s.objs, s.sent) + InHand(s)
  }

  function ReadBy(e: Event): seq<Packet> {
    if e.Receive? then Relayed(e.src, e.datagram) else []
  }

  lemma MainSteps(h: Hash, s: State, e: Event)
    requires Enabled(s, e) && WritesOwned(s) && (e.Receive? || e.Relock?)
    ensures var r := Next(h, s, e);
            && r.sent == s.sent && |InHand(s) + ReadBy(e)| <= 1
            && (InHand(r) == [] || InHand(r) == InHand(s) + ReadBy(e))
  {
    StepFrame(h, s, e);
  }

  lemma OtherSteps(h: Hash, s: State, e: Event)
    requires Enabled(s, e) && WritesOwned(s) && !e.Receive? && !e.Relock?
    ensures var r := Next(h, s, e);
            || (r.sent == s.sent && (InHand(r) == InHand(s) || (e.Forward? && InHand(r) == [])))
            || (|r.sent| == |s.sent| + 1 && r.sent[..|s.sent|] == s.sent
                && MainWrite(r.objs, r.sent[|s.sent|]) + InHand(r) == InHand(s))
  {
    StepFrame(h, s, e);
  }

  lemma MainProgress(h: Hash, s: State, e: Event)
    requires Enabled(s, e) && WritesOwned(s)
    ensures Progress(MainDone(s), ReadBy(e), MainDone(Next(h, s, e)))
  {
    var r, hand := Next(h, s, e), InHand(s);
    StepKeepsIDs(h, s, e);
    SentKeepsIDs(s.objs, r.objs, s.sent);
    var kept := MainSent(s.objs, s.sent);
    assert kept + hand + [] == kept + hand && (hand != [] ==> (kept + hand)[..|kept|] == kept);
    if e.Receive? || e.Relock? {
      MainSteps(h, s, e);
      assert kept + (hand + ReadBy(e)) == kept + hand + ReadBy(e);
    } else {
      OtherSteps(h, s, e);
      if r.sent != s.sent {
        var more := MainWrite(r.objs, r.sent[|s.sent|]);
        assert kept + more + InHand(r) == kept + (more + InHand(r));
      }
    }
  }

  lemma {:induction false} MainKeepsOrder(h: Hash, evs: seq<Event>)
    requires Exec(h, evs).Some?
    ensures Subsequence(MainDone(Exec(h, evs).value), Received(evs))
  {
    if evs != [] {
      var front := evs[..|evs| - 1];
      var s, e := LastStep(h, evs);
      MainKeepsOrder(h, front);
      AlwaysOwned(h, front);
      MainProgress(h, s, e);
      OrderKept(MainDone(s), ReadBy(e), MainDone(Next(h, s, e)), Received(front));
    }
  }

  /** The main loop: what it has written for sessions are packets it read under their IDs from the same senders,
      byte for byte without the header, in the order it read them and each at most once. */
  lemma MainForwardsInOrder(h: Hash, evs: seq<Event>)
    requires Exec(h, evs).Some?
    ensures Subsequence(MainSent(Exec(h, evs).value.objs, Exec(h, evs).value.sent), Received(evs))
  {
    MainKeepsOrder(h, evs);
    var s := Exec(h, evs).value;
    var kept := MainSent(s.objs, s.sent);
    if InHand(s) == [] {
      assert kept + [] == kept;
    } else {
      assert InHand(s) == [InHand(s)[0]];
      OneFewer(kept, InHand(s)[0], Received(evs));
    }
  }

  // ---- Raw loops ----

  /** What the raw port of object `o` has read, in order, each with the header of ID `id` before it. */
  function RawRead(evs: seq<Event>, o: nat, id: Bytes): seq<Packet> {
    if evs == [] then []
    else RawRead(evs[..|evs| - 1], o, id) + RawReadBy(evs[|evs| - 1], o, id)
  }

  function RawReadBy(e: Event, o: nat, id: Bytes): seq<Packet> {
    if e.RawReceive? && e.o == o then [Packet(e.src, id, Header(id) + e.packet)] else []
  }

  function RawWrite(w: Write, o: nat, id: Bytes): seq<Packet> {
    if w.origin.FromRaw? && w.obj == o then [Packet(w.src, id, w.bytes)] else []
  }

  /** What the raw loop of object `o` has written, in order. */
  function RawSent(sent: seq<Write>, o: nat, id: Bytes): seq<Packet> {
    if sent == [] then []
    else RawSent(sent[..|sent| - 1], o, id) + RawWrite(sent[|sent| - 1], o, id)
  }

  /** The packet the raw loop of object `o` has in hand. */
  function RawInHand(s: State, o: nat, id: Bytes): seq<Packet> {
    if o >= |s.objs| then []
    else
      match s.objs[o].raw
      case Got(src, packet) => [Packet(src, id, Header(id) + packet)]
      case Recorded(src, packet) => [Packet(src, id, Header(id) + packet)]
      case Sending(w) => RawWrite(w, o, id)
      case _ => []
  }

  /** What the raw loop of object `o` has written or has in hand, in order. */
  function RawDone(s: State, o: nat, id: Bytes): seq<Packet> {
    RawSent(s.sent, o, id) + RawInHand(s, o, id)
  }

  lemma OwnRawStep(h: Hash, s: State, e: Event, o: nat, id: Bytes)
    requires Enabled(s, e) && WritesOwned(s) && IsRaw(e) && e.o == o && s.objs[o].sess.tokenID == id
    ensures var r, hand, hand' := Next(h, s, e), RawInHand(s, o, id), RawInHand(Next(h, s, e), o, id);
            || (r.sent == s.sent && |hand + RawReadBy(e, o, id)| <= 1
                && (hand' == [] || hand' == hand + RawReadBy(e, o, id)))
            || (r.sent == s.sent + [s.objs[o].raw.write] && RawWrite(s.objs[o].raw.write, o, id) == hand
                && hand' == [] && RawReadBy(e, o, id) == [])
  {
  }

  lemma OtherRawStep(h: Hash, s: State, e: Event, o: nat, id: Bytes)
    requires Enabled(s, e) && WritesOwned(s) && !(IsRaw(e) && e.o == o)
    ensures var r := Next(h, s, e);
            && RawInHand(r, o, id) == RawInHand(s, o, id) && RawReadBy(e, o, id) == []
            && (r.sent == s.sent || (r.sent == s.sent + [r.sent[|s.sent|]] && RawWrite(r.sent[|s.sent|], o, id) == []))
  {
    StepFrame(h, s, e);
  }

  lemma OneMoreRaw(sent: seq<Write>, w: Write, o: nat, id: Bytes)
    ensures RawSent(sent + [w], o, id) == RawSent(sent, o, id) + RawWrite(w, o, id)
  {
    assert (sent + [w])[..|sent|] == sent;
  }

  lemma RawProgress(h: Hash, s: State, e: Event, o: nat, id: Bytes)
    requires Enabled(s, e) && WritesOwned(s) && (o < |s.objs| ==> s.objs[o].sess.tokenID == id)
    ensures Progress(RawDone(s, o, id), RawReadBy(e, o, id), RawDone(Next(h, s, e), o, id))
  {
    var r, kept, hand := Next(h, s, e), RawSent(s.sent, o, id), RawInHand(s, o, id);
    assert kept + hand + [] == kept + hand && kept + [] == kept && (hand != [] ==> (kept + hand)[..|kept|] == kept);
    if IsRaw(e) && e.o == o {
      OwnRawStep(h, s, e, o, id);
      if r.sent == s.sent {
        assert kept + (hand + RawReadBy(e, o, id)) == kept + hand + RawReadBy(e, o, id);
      } else {
        OneMoreRaw(s.sent, s.objs[o].raw.write, o, id);
      }
    } else {
      OtherRawStep(h, s, e, o, id);
      if r.sent != s.sent {
        OneMoreRaw(s.sent, r.sent[|s.sent|], o, id);
      }
    }
  }

  /** The raw loop of a session: what it has written are packets read on its raw port from the same senders, each
      with the session's header before it, in order and each at most once. */
  lemma {:induction false} RawForwardsInOrder(h: Hash, evs: seq<Event>, o: nat, id: Bytes)
    requires Exec(h, evs).Some? && (o < |Exec(h, evs).value.objs| ==> Exec(h, evs).value.objs[o].sess.tokenID == id)
    ensures var s := Exec(h, evs).value;
            Subsequence(RawDone(s, o, id), RawRead(evs, o, id))
  {
    if evs != [] {
      var front := evs[..|evs| - 1];
      var s, e := LastStep(h, evs);
      StepKeepsIDs(h, s, e);
      RawForwardsInOrder(h, front, o, id);
      AlwaysOwned(h, front);
      RawProgress(h, s, e, o, id);
      OrderKept(RawDone(s, o, id), RawReadBy(e, o, id), RawDone(Next(h, s, e), o, id), RawRead(front, o, id));
    }
  }

  // ---- From one client through the relay to another ----

  function Sender(p: Packet, a: Addr): seq<Packet> {
    if p.src == a then [p] else []
  }

  /** The packets of sender `a`. */
  function Of(ps: seq<Packet>, a: Addr): seq<Packet> {
    if ps == [] then [] else Of(ps[..|ps| - 1], a) + Sender(ps[|ps| - 1], a)
  }

  function Payloads(ps: seq<Packet>): (r: seq<Bytes>)
    ensures |r| == |ps|
  {
    if ps == [] then [] else Payloads(ps[..|ps| - 1]) + [ps[|ps| - 1].payload]
  }

  /** The datagrams read on the main socket from address `a`. */
  function DatagramsOf(evs: seq<Event>, a: Addr): seq<Bytes> {
    if evs == [] then []
    else
      var e := evs[|evs| - 1];
      DatagramsOf(evs[..|evs| - 1], a) + if e.Receive? && e.src == a then [e.datagram] else []
  }

  /** What a client at `a` makes the relay read if it sends these datagrams. */
  function AllRelayed(a: Addr, datagrams: seq<Bytes>): seq<Packet> {
    if datagrams == [] then []
    else AllRelayed(a, datagrams[..|datagrams| - 1]) + Relayed(a, datagrams[|datagrams| - 1])
  }

  lemma Appended<T>(a: seq<T>, x: T)
    ensures (a + [x])[..|a + [x]| - 1] == a && a + [] == a
  {
  }

  lemma OneMoreOf(ps: seq<Packet>, p: Packet, a: Addr)
    ensures Of(ps + [p], a) == Of(ps, a) + Sender(p, a)
  {
    Appended(ps, p);
  }

  lemma OneMoreRelayed(a: Addr, datagrams: seq<Bytes>, d: Bytes)
    ensures AllRelayed(a, datagrams + [d]) == AllRelayed(a, datagrams) + Relayed(a, d)
  {
    Appended(datagrams, d);
  }

  /** What the relay has read from `a` is what it makes of the datagrams that came from `a`. */
  lemma {:induction false} ReceivedOf(evs: seq<Event>, a: Addr)
    ensures Of(Received(evs), a) == AllRelayed(a, DatagramsOf(evs, a))
  {
    if evs != [] {
      var front, e := evs[..|evs| - 1], evs[|evs| - 1];
      ReceivedOf(front, a);
      var ps, ds := Received(front), DatagramsOf(front, a);
      assert ps + [] == ps && ds + [] == ds && Of(ps, a) + [] == Of(ps, a);
      if e.Receive? {
        if ReadBy(e) != [] {
          assert ReadBy(e) == [ReadBy(e)[0]];
          OneMoreOf(ps, ReadBy(e)[0], a);
        }
        OneMoreRelayed(a, ds, e.datagram);
      }
    }
  }

  lemma {:induction false} SubsequenceOf(x: seq<Packet>, y: seq<Packet>, a: Addr)
    requires Subsequence(x, y)
    ensures Subsequence(Of(x, a), Of(y, a))
    decreases |y|
  {
    if x != [] {
      var y', last := y[..|y| - 1], y[|y| - 1];
      assert Of(y', a) + [] == Of(y', a);
      if Subsequence(x, y') {
        SubsequenceOf(x, y', a);
        if last.src == a {
          OneDropped(Of(x, a), Of(y', a), last);
        }
      } else {
        var x' := x[..|x| - 1];
        SubsequenceOf(x', y', a);
        assert Of(x', a) + [] == Of(x', a);
        if last.src == a {
          OneKept(Of(x', a), Of(y', a), last);
        }
      }
    }
  }

  lemma {:induction false} SubsequenceRelayed(x: seq<Bytes>, y: seq<Bytes>, a: Addr)
    requires Subsequence(x, y)
    ensures Subsequence(AllRelayed(a, x), AllRelayed(a, y))
    decreases |y|
  {
    if x != [] {
      var y', last := y[..|y| - 1], Relayed(a, y[|y| - 1]);
      assert AllRelayed(a, y') + [] == AllRelayed(a, y');
      if Subsequence(x, y') {
        SubsequenceRelayed(x, y', a);
        if last != [] {
          assert last == [last[0]];
          OneDropped(AllRelayed(a, x), AllRelayed(a, y'), last[0]);
        }
      } else {
        var x' := x[..|x| - 1];
        SubsequenceRelayed(x', y', a);
        assert AllRelayed(a, x') + [] == AllRelayed(a, x');
        if last != [] {
          assert last == [last[0]];
          OneKept(AllRelayed(a, x'), AllRelayed(a, y'), last[0]);
        }
      }
    }
  }

  lemma {:induction false} SubsequencePayloads(x: seq<Packet>, y: seq<Packet>)
    requires Subsequence(x, y)
    ensures Subsequence(Payloads(x), Payloads(y))
    decreases |y|
  {
    if x != [] {
      var y' := y[..|y| - 1];
      if Subsequence(x, y') {
        SubsequencePayloads(x, y');
        OneDropped(Payloads(x), Payloads(y'), y[|y| - 1].payload);
      } else {
        SubsequencePayloads(x[..|x| - 1], y');
        OneKept(Payloads(x[..|x| - 1]), Payloads(y'), y[|y| - 1].payload);
      }
    }
  }

  /** The relay reads from a client's datagrams exactly the packets of its WireGuard. */
  lemma {:induction false} RelayedPackets(a: Addr, id: Bytes, inputs: seq<Read>)
    requires |id| == TOKEN_ID_LEN
    ensures Payloads(AllRelayed(a, Sent(id, inputs))) == Packets(inputs)
    decreases |inputs|
  {
    if inputs != [] {
      var front, last := inputs[..|inputs| - 1], inputs[|inputs| - 1];
      RelayedPackets(a, id, front);
      var sent := Sent(id, front);
      assert sent + [] == sent && Packets(front) + [] == Packets(front);
      if last.FromWireGuard? {
        ParseWrap(id, last.packet);
        OneMoreRelayed(a, sent, Wrap(id, last.packet));
        Appended(AllRelayed(a, sent), Packet(a, id, last.packet));
      }
    }
  }

  function AsReads(arrived: seq<Bytes>): (r: seq<Read>)
    ensures |r| == |arrived|
  {
    if arrived == [] then [] else AsReads(arrived[..|arrived| - 1]) + [FromRelay(arrived[|arrived| - 1])]
  }

  /** A client that knows its WireGuard hands over what arrives. */
  lemma {:induction false} HandsOver(arrived: seq<Bytes>, peer: Addr)
    ensures Learned(Some(peer), AsReads(arrived)) == Some(peer)
    ensures Delivered(Some(peer), AsReads(arrived)) == Addressed(peer, arrived)
  {
    if arrived != [] {
      var front := arrived[..|arrived| - 1];
      HandsOver(front, peer);
      assert AsReads(arrived)[..|front|] == AsReads(front);
    }
  }

  /** In every run of the relay, whatever else it does: if the network from the client at `a` to the relay and from
      the relay to another client may lose datagrams but neither reorders nor doubles them, then what the other
      client's WireGuard is handed of the packets from `a` are packets that the WireGuard at `a` sent, byte for byte,
      in order and each at most once. */
  lemma EndToEnd(h: Hash, evs: seq<Event>, a: Addr, id: Bytes, inputs: seq<Read>, arrived: seq<Bytes>, peer: Addr)
    requires Exec(h, evs).Some? && |id| == TOKEN_ID_LEN
    requires Subsequence(DatagramsOf(evs, a), Sent(id, inputs))
    requires Subsequence(arrived, Payloads(Of(MainSent(Exec(h, evs).value.objs, Exec(h, evs).value.sent), a)))
    ensures Delivered(Some(peer), AsReads(arrived)) == Addressed(peer, arrived)
    ensures Subsequence(arrived, Packets(inputs))
  {
    HandsOver(arrived, peer);
    var written := MainSent(Exec(h, evs).value.objs, Exec(h, evs).value.sent);
    var read := AllRelayed(a, DatagramsOf(evs, a));
    MainForwardsInOrder(h, evs);
    SubsequenceOf(written, Received(evs), a);
    ReceivedOf(evs, a);
    SubsequenceRelayed(DatagramsOf(evs, a), Sent(id, inputs), a);
    Transitive(Of(written, a), read, AllRelayed(a, Sent(id, inputs)));
    SubsequencePayloads(Of(written, a), AllRelayed(a, Sent(id, inputs)));
    RelayedPackets(a, id, inputs);
    Transitive(arrived, Payloads(Of(written, a)), Packets(inputs));
  }
}
