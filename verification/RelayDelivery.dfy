/** What the relay does send: each packet of a known peer of a session goes to the other side, once and unchanged,
    whatever the other threads do between its read and its write. */
module RelayDelivery {
  import opened Text
  import opened Frames
  import opened Routing
  import opened RelayMachine
  import opened RelaySockets

  /** The main loop stands at its read and the session is in the map. */
  ghost predicate Ready(h: Hash, s: State, o: nat) {
    WF(h, s) && InTable(s, o) && s.main.Listening?
  }

  /** The packet is read from `src` and the main loop stands at the write of `w`. */
  ghost predicate LeadsTo(h: Hash, s: State, o: nat, src: Addr, packet: Bytes, w: Write)
    requires o < |s.objs|
  {
    var read := Receive(src, Wrap(s.objs[o].sess.tokenID, packet), Some(o));
    && Enabled(s, read)
    && Next(h, s, read).main == Forwarding(w)
    && Next(h, s, read).sent == s.sent
  }

  lemma Reads(h: Hash, s: State, o: nat, src: Addr, packet: Bytes)
    requires Ready(h, s, o)
    ensures Enabled(s, Receive(src, Wrap(s.objs[o].sess.tokenID, packet), Some(o)))
    ensures Forwarded(Wrap(s.objs[o].sess.tokenID, packet)) == packet
    ensures Parse(Wrap(s.objs[o].sess.tokenID, packet)) == Frame(s.objs[o].sess.tokenID, packet)
  {
    ParseWrap(s.objs[o].sess.tokenID, packet);
  }

  /** The provider's packet is for the renter on the raw port, if it has one there. */
  lemma ProviderToRawRenter(h: Hash, s: State, o: nat, a: Addr, port: nat, r: Addr, packet: Bytes)
    requires Ready(h, s, o)
    requires var x := s.objs[o].sess; x.peerA == Some(a) && x.rawConn == Some(port) && x.renterAddr == Some(r)
    ensures LeadsTo(h, s, o, a, packet, Write(o, FromMain, a, ViaRaw(port, r), packet))
  {
    Reads(h, s, o, a, packet);
  }

  /** Else it is for the second relay client. */
  lemma ProviderToClient(h: Hash, s: State, o: nat, a: Addr, b: Addr, packet: Bytes)
    requires Ready(h, s, o)
    requires var x := s.objs[o].sess;
             x.peerA == Some(a) && x.peerB == Some(b) && (x.rawConn.None? || x.renterAddr.None?)
    ensures LeadsTo(h, s, o, a, packet, Write(o, FromMain, a, ViaMain(b), packet))
  {
    Reads(h, s, o, a, packet);
  }

  /** The second relay client's packet is for the provider. */
  lemma ClientToProvider(h: Hash, s: State, o: nat, a: Addr, b: Addr, packet: Bytes)
    requires Ready(h, s, o) && a != b
    requires s.objs[o].sess.peerA == Some(a) && s.objs[o].sess.peerB == Some(b)
    ensures LeadsTo(h, s, o, b, packet, Write(o, FromMain, b, ViaMain(a), packet))
  {
    Reads(h, s, o, b, packet);
  }

  /** The main loop reads the packet, drops the read lock to take the write lock, and finds the session again. */
  ghost predicate Learns(h: Hash, s: State, o: nat, src: Addr, packet: Bytes, sess: Session, main: MainLoop)
    requires o < |s.objs|
  {
    var read := Receive(src, Wrap(s.objs[o].sess.tokenID, packet), Some(o));
    && Enabled(s, read)
    && var gap := Next(h, s, read);
    && gap == s.(main := Between(src, Wrap(s.objs[o].sess.tokenID, packet), |s.objs|))
    && Enabled(gap, Relock(Some(o)))
    && Next(h, gap, Relock(Some(o))) == SetSession(s, o, sess).(main := main)
  }

  /** The first sender becomes the provider, and its packet goes nowhere. */
  lemma FirstSender(h: Hash, s: State, o: nat, a: Addr, packet: Bytes)
    requires Ready(h, s, o) && s.objs[o].sess.peerA.None?
    ensures Learns(h, s, o, a, packet, s.objs[o].sess.(peerA := Some(a), lastActive := s.now), Listening)
  {
    Reads(h, s, o, a, packet);
  }

  /** The next one becomes the second relay client if no raw renter is known, and its packet goes to the provider. */
  lemma SecondSender(h: Hash, s: State, o: nat, a: Addr, b: Addr, packet: Bytes)
    requires Ready(h, s, o) && a != b
    requires var x := s.objs[o].sess; x.peerA == Some(a) && x.peerB.None? && x.renterAddr.None?
    ensures Learns(h, s, o, b, packet, s.objs[o].sess.(peerB := Some(b), lastActive := s.now),
                   Forwarding(Write(o, FromMain, b, ViaMain(a), packet)))
  {
    Reads(h, s, o, b, packet);
  }

  /** What is read from anyone else, or for no session, changes no peer and is not sent. */
  lemma OthersGoNowhere(h: Hash, s: State, o: nat, x: Addr, packet: Bytes)
    requires Ready(h, s, o)
    requires var y := s.objs[o].sess;
             && y.peerA.Some? && Some(x) != y.peerA && Some(x) != y.peerB
             && (y.peerB.Some? || y.renterAddr.Some?)
    ensures var read := Receive(x, Wrap(s.objs[o].sess.tokenID, packet), Some(o));
            && Enabled(s, read)
            && Next(h, s, read) == SetSession(s, o, s.objs[o].sess.(lastActive := s.now)).(main := Listening)
  {
    Reads(h, s, o, x, packet);
  }

  lemma UnknownGoesNowhere(h: Hash, s: State, x: Addr, datagram: Bytes)
    requires Enabled(s, Receive(x, datagram, None))
    ensures Next(h, s, Receive(x, datagram, None)) == s
  {
  }

  /** A packet in the main loop's hand stays there, whatever else happens, and only its write can follow. */
  lemma PendingStays(h: Hash, s: State, e: Event)
    requires Enabled(s, e) && s.main.Forwarding? && e != Forward
    ensures Next(h, s, e).main == s.main
    ensures !e.Receive? && !e.Relock?
  {
  }

  /** The main loop stands at the write of `w` after the first `i` events. */
  ghost predicate Pending(h: Hash, evs: seq<Event>, i: nat, w: Write) {
    i <= |evs| && Exec(h, evs[..i]).Some? && Exec(h, evs[..i]).value.main == Forwarding(w)
  }

  /** Event `j` is the main loop's first write at or after event `i`. */
  predicate NextWrite(evs: seq<Event>, i: nat, j: nat) {
    i <= j < |evs| && evs[j] == Forward && forall k :: i <= k < j ==> evs[k] != Forward
  }

  lemma {:induction false} PendingUntil(h: Hash, evs: seq<Event>, i: nat, j: nat, w: Write)
    requires Exec(h, evs).Some? && i <= j <= |evs| && Pending(h, evs, i, w)
    requires forall k :: i <= k < j ==> evs[k] != Forward
    ensures Pending(h, evs, j, w)
    decreases j
  {
    if i < j {
      PendingUntil(h, evs, i, j - 1, w);
      var s := StepAt(h, evs, j - 1);
      PendingStays(h, s, evs[j - 1]);
    }
  }

  /** The write on the main socket is made always, on a raw socket exactly if that is still open. */
  lemma Writes(h: Hash, s: State, w: Write)
    requires WF(h, s) && s.main == Forwarding(w) && w.route != Drop
    ensures Enabled(s, Forward) && Next(h, s, Forward).main == Listening
    ensures Next(h, s, Forward).sent == s.sent + (if w.route.ViaRaw? && !SocketOpen(s, w.obj) then [] else [w])
  {
  }

  /** What event `j` of a run has added to what was sent. */
  ghost predicate Adds(h: Hash, evs: seq<Event>, j: nat, ws: seq<Write>) {
    && j < |evs| && Exec(h, evs[..j]).Some? && Exec(h, evs[..j + 1]).Some?
    && Exec(h, evs[..j + 1]).value.sent == Exec(h, evs[..j]).value.sent + ws
  }

  ghost predicate OpenAt(h: Hash, evs: seq<Event>, j: nat, o: nat) {
    j <= |evs| && Exec(h, evs[..j]).Some? && var s := Exec(h, evs[..j]).value; o < |s.objs| && SocketOpen(s, o)
  }

  /** In a run, the write that the main loop stands at is the next it makes. */
  lemma WrittenNext(h: Hash, evs: seq<Event>, i: nat, j: nat, w: Write)
    requires Exec(h, evs).Some? && Pending(h, evs, i, w) && NextWrite(evs, i, j) && w.route != Drop
    ensures Adds(h, evs, j, if w.route.ViaRaw? && !OpenAt(h, evs, j, w.obj) then [] else [w])
  {
    PendingUntil(h, evs, i, j, w);
    var s := StepAt(h, evs, j);
    Writes(h, s, w);
  }

  lemma PendingAfterRead(h: Hash, evs: seq<Event>, i: nat, s: State, o: nat, packet: Bytes, w: Write)
    requires i < |evs| && Exec(h, evs[..i]) == Some(s) && o < |s.objs| && evs[i].Receive?
    requires evs[i] == Receive(evs[i].src, Wrap(s.objs[o].sess.tokenID, packet), Some(o))
    requires LeadsTo(h, s, o, evs[i].src, packet, w)
    ensures Pending(h, evs, i + 1, w)
  {
    OneMore(h, evs[..i], s, evs[i]);
    assert evs[..i + 1] == evs[..i] + [evs[i]];
  }

  /** From the provider to the raw renter in a run: the packet read at `i` is written at `j`, the main loop's next
      write, if the session's raw socket is still open then, and is otherwise lost. */
  lemma RawRenterReceives(h: Hash, evs: seq<Event>, i: nat, j: nat, s: State, o: nat, a: Addr, port: nat, r: Addr,
                          packet: Bytes)
    requires Exec(h, evs).Some? && i < |evs| && NextWrite(evs, i + 1, j)
    requires Exec(h, evs[..i]) == Some(s) && Ready(h, s, o)
    requires var x := s.objs[o].sess; x.peerA == Some(a) && x.rawConn == Some(port) && x.renterAddr == Some(r)
    requires evs[i] == Receive(a, Wrap(s.objs[o].sess.tokenID, packet), Some(o))
    ensures Adds(h, evs, j, if OpenAt(h, evs, j, o) then [Write(o, FromMain, a, ViaRaw(port, r), packet)] else [])
  {
    var w := Write(o, FromMain, a, ViaRaw(port, r), packet);
    ProviderToRawRenter(h, s, o, a, port, r, packet);
    PendingAfterRead(h, evs, i, s, o, packet, w);
    WrittenNext(h, evs, i + 1, j, w);
  }

  /** From the provider to the second relay client in a run: what is read at `i` is the main loop's next write. */
  lemma ClientReceives(h: Hash, evs: seq<Event>, i: nat, j: nat, s: State, o: nat, a: Addr, b: Addr, packet: Bytes)
    requires Exec(h, evs).Some? && i < |evs| && NextWrite(evs, i + 1, j)
    requires Exec(h, evs[..i]) == Some(s) && Ready(h, s, o)
    requires var x := s.objs[o].sess;
             x.peerA == Some(a) && x.peerB == Some(b) && (x.rawConn.None? || x.renterAddr.None?)
    requires evs[i] == Receive(a, Wrap(s.objs[o].sess.tokenID, packet), Some(o))
    ensures Adds(h, evs, j, [Write(o, FromMain, a, ViaMain(b), packet)])
  {
    ProviderToClient(h, s, o, a, b, packet);
    PendingAfterRead(h, evs, i, s, o, packet, Write(o, FromMain, a, ViaMain(b), packet));
    WrittenNext(h, evs, i + 1, j, Write(o, FromMain, a, ViaMain(b), packet));
  }

  /** And from that client to the provider. */
  lemma ProviderReceives(h: Hash, evs: seq<Event>, i: nat, j: nat, s: State, o: nat, a: Addr, b: Addr, packet: Bytes)
    requires Exec(h, evs).Some? && i < |evs| && NextWrite(evs, i + 1, j)
    requires Exec(h, evs[..i]) == Some(s) && Ready(h, s, o) && a != b
    requires s.objs[o].sess.peerA == Some(a) && s.objs[o].sess.peerB == Some(b)
    requires evs[i] == Receive(b, Wrap(s.objs[o].sess.tokenID, packet), Some(o))
    ensures Adds(h, evs, j, [Write(o, FromMain, b, ViaMain(a), packet)])
  {
    ClientToProvider(h, s, o, a, b, packet);
    PendingAfterRead(h, evs, i, s, o, packet, Write(o, FromMain, b, ViaMain(a), packet));
    WrittenNext(h, evs, i + 1, j, Write(o, FromMain, b, ViaMain(a), packet));
  }

  // ---- The raw renter's packets ----

  /** What a raw loop has in hand stays there, whatever any other thread does. */
  lemma RawPendingStays(h: Hash, s: State, e: Event, o: nat)
    requires Enabled(s, e) && o < |s.objs|
    requires !(IsRaw(e) && e.o == o)
    ensures o < |Next(h, s, e).objs| && Next(h, s, e).objs[o].raw == s.objs[o].raw
    ensures Next(h, s, e).objs[o].sess.renterAddr == s.objs[o].sess.renterAddr
  {
    StepFrame(h, s, e);
  }

  /** A turn of the raw loop, each of its steps in its own state: the packet is stamped and held, its sender becomes the
      renter that the provider's packets go to, and it is sent to the provider behind the header, if there is one. */
  lemma RawRenterToProvider(h: Hash, s: State, o: nat, r: Addr, packet: Bytes)
    requires WF(h, s) && o < |s.objs|
    ensures var e := RawReceive(o, r, packet);
            Enabled(s, e) ==>
              Next(h, s, e).objs[o] == s.objs[o].(sess := s.objs[o].sess.(lastActive := s.now), raw := Got(r, packet))
    ensures s.objs[o].raw == Got(r, packet) ==>
              && Enabled(s, RawRecord(o))
              && Next(h, s, RawRecord(o)).objs[o]
                 == s.objs[o].(sess := s.objs[o].sess.(renterAddr := Some(r)), raw := Recorded(r, packet))
    ensures s.objs[o].raw == Recorded(r, packet) ==>
              && Enabled(s, RawPeer(o))
              && Next(h, s, RawPeer(o)).objs[o].raw
                 == match s.objs[o].sess.peerA
                    case None => Reading
                    case Some(a) => Sending(Write(o, FromRaw, r, ViaMain(a), Wrap(s.objs[o].sess.tokenID, packet)))
    ensures s.objs[o].raw.Sending? ==>
              && Enabled(s, RawSend(o))
              && Next(h, s, RawSend(o)).sent == s.sent + [s.objs[o].raw.write]
              && Next(h, s, RawSend(o)).objs[o] == s.objs[o].(raw := Reading)
  {
  }

  /** Once the raw loop has recorded a renter, the provider's next packet is for that renter. */
  lemma AnswersTheRenter(h: Hash, s: State, o: nat, a: Addr, r: Addr, question: Bytes, answer: Bytes)
    requires Ready(h, s, o) && SocketOpen(s, o)
    requires s.objs[o].raw == Got(r, question) && s.objs[o].sess.peerA == Some(a)
    ensures Enabled(s, RawRecord(o)) && o < |Next(h, s, RawRecord(o)).objs|
    ensures LeadsTo(h, Next(h, s, RawRecord(o)), o, a, answer,
                    Write(o, FromMain, a, ViaRaw(s.objs[o].sess.rawConn.value, r), answer))
    ensures SocketOpen(Next(h, s, RawRecord(o)), o)
  {
    var t := Next(h, s, RawRecord(o));
    RawStepsWF(h, s, RawRecord(o));
    SocketNow(h, s, RawRecord(o), o);
    InMapNow(h, s, RawRecord(o), o);
    RawRenterToProvider(h, s, o, r, question);
    ProviderToRawRenter(h, t, o, a, s.objs[o].sess.rawConn.value, r, answer);
  }
}
