/** The steps of the relay's machine are the operations of the relay's class, on the same sessions and ports. */
module RelayTies {
  import opened Text
  import opened Frames
  import opened Routing
  import opened RelayMachine
  import opened RelayServer
  import opened RelaySockets

  /** The sessions map, by value. */
  ghost function ViewOf(s: State): map<string, Session> {
    map t | t in s.table && s.table[t] < |s.objs| :: s.objs[s.table[t]].sess
  }

  /** The raw socket of every session in the map is open: no read on one has failed. */
  ghost predicate MapSocketsOpen(s: State) {
    forall o :: 0 <= o < |s.objs| && InTable(s, o) && s.objs[o].sess.rawConn.Some? ==> SocketOpen(s, o)
  }

  /** So it is in every run in which no session is registered over a live one and no read on an open socket fails. */
  lemma CleanRunsKeepOpen(h: Hash, evs: seq<Event>)
    requires Exec(h, evs).Some? && NeverLeaks(h, evs)
    ensures WF(h, Exec(h, evs).value) && MapSocketsOpen(Exec(h, evs).value)
  {
    SocketsConserved(h, evs);
  }

  // ---- Table ----

  lemma SweptView(h: Hash, s: State)
    requires WF(h, s)
    ensures ViewOf(SweepStep(s)) == Survivors(ViewOf(s), s.now)
  {
    var r := SweepStep(s);
    forall t | t in Survivors(ViewOf(s), s.now) ensures t in ViewOf(r) && ViewOf(r)[t] == ViewOf(s)[t] {
    }
  }

  lemma SweptPorts(h: Hash, s: State)
    requires WF(h, s) && MapSocketsOpen(s)
    ensures SweepStep(s).bound.Keys == s.bound.Keys - IdlePorts(ViewOf(s), s.now)
  {
    var r := SweepStep(s);
    forall p | p in s.bound ensures p in r.bound <==> p !in IdlePorts(ViewOf(s), s.now) {
      var o := s.bound[p];
      if InTable(s, o) && Idle(s, o) {
        var t := s.objs[o].sess.token;
        assert t in ViewOf(s) && IsIdle(ViewOf(s)[t], s.now) && ViewOf(s)[t].rawConn == Some(p);
      }
      if p in IdlePorts(ViewOf(s), s.now) {
        var t :| t in ViewOf(s) && IsIdle(ViewOf(s)[t], s.now) && ViewOf(s)[t].rawConn == Some(p);
        assert InTable(s, s.table[t]) && SocketOpen(s, s.table[t]);
      }
    }
  }

  /** A sweep of the machine is `ReapIdleSessions`. */
  lemma SweepIsReap(h: Hash, s: State)
    requires WF(h, s) && MapSocketsOpen(s)
    ensures var r := Next(h, s, Sweep);
            && ViewOf(r) == Survivors(ViewOf(s), s.now)
            && r.bound.Keys == s.bound.Keys - IdlePorts(ViewOf(s), s.now)
  {
    SweptView(h, s);
    SweptPorts(h, s);
  }

  lemma BoundView(h: Hash, s: State, token: string, sessionID: string, refused: bool)
    requires WF(h, s)
    ensures var b := BindStep(h, s, token, sessionID, refused);
            && ViewOf(b) == ViewOf(s)
            && b.bound.Keys == RegisteredPorts(h, token, s.bound.Keys, refused)
            && |b.objs| == |s.objs| + 1
            && b.objs[|s.objs|].sess == RegisteredSession(h, token, sessionID, s.bound.Keys, refused, s.now)
  {
  }

  lemma InstalledView(s: State, o: nat)
    requires o < |s.objs|
    ensures ViewOf(InstallStep(s, o)) == ViewOf(s)[s.objs[o].sess.token := s.objs[o].sess]
  {
  }

  /** Binding the port and then entering the map, with nothing in between, is `RegisterSession`. */
  lemma BindInstallIsRegister(h: Hash, s: State, token: string, sessionID: string, refused: bool)
    requires WF(h, s)
    ensures var b, o := Next(h, s, Bind(token, sessionID, refused)), |s.objs|;
            && Enabled(b, Install(o))
            && var r := Next(h, b, Install(o));
            && ViewOf(r) == ViewOf(s)[token := RegisteredSession(h, token, sessionID, s.bound.Keys, refused, s.now)]
            && r.bound.Keys == RegisteredPorts(h, token, s.bound.Keys, refused)
  {
    BoundView(h, s, token, sessionID, refused);
    InstalledView(BindStep(h, s, token, sessionID, refused), |s.objs|);
  }

  lemma UnlinkedView(h: Hash, s: State, token: string)
    requires WF(h, s)
    ensures ViewOf(UnlinkStep(s, token)) == ViewOf(s) - {token} && UnlinkStep(s, token).bound == s.bound
  {
  }

  lemma ClosedPort(h: Hash, s: State, o: nat)
    requires WF(h, s) && o < |s.objs| && SocketOpen(s, o)
    ensures Unbind(s, o).Keys == s.bound.Keys - {s.objs[o].sess.rawConn.value}
  {
  }

  /** Leaving the map and then closing the socket, with nothing in between, is `InvalidateSession`. */
  lemma UnlinkCloseIsInvalidate(h: Hash, s: State, token: string)
    requires WF(h, s) && MapSocketsOpen(s)
    ensures var u := Next(h, s, Unlink(token));
            && ViewOf(u) == ViewOf(s) - {token}
            && if token in s.table && s.objs[s.table[token]].sess.rawConn.Some? then
                 && Enabled(u, CloseRaw(s.table[token]))
                 && var r := Next(h, u, CloseRaw(s.table[token]));
                 ViewOf(r) == ViewOf(u) && r.bound.Keys == InvalidatedPorts(ViewOf(s), s.bound.Keys, token)
               else u.bound.Keys == InvalidatedPorts(ViewOf(s), s.bound.Keys, token)
  {
    UnlinkedView(h, s, token);
    if token in s.table && s.objs[s.table[token]].sess.rawConn.Some? {
      assert InTable(s, s.table[token]);
      ClosedPort(h, s, s.table[token]);
      assert Unbind(UnlinkStep(s, token), s.table[token]) == Unbind(s, s.table[token]);
    }
  }

  // ---- Packets ----

  lemma RoutedView(h: Hash, s: State, o: nat, sess: Session)
    requires WF(h, s) && InTable(s, o) && sess.token == s.objs[o].sess.token
    ensures ViewOf(SetSession(s, o, sess)) == ViewOf(s)[sess.token := sess]
    ensures sess.token in ViewOf(s) && ViewOf(s)[sess.token] == s.objs[o].sess
  {
  }

  lemma FoundIsSome(h: Hash, s: State, id: Bytes, found: Option<nat>)
    requires WF(h, s) && Finds(s, id, found)
    ensures found.Some? <==> SomeSession(ViewOf(s), id)
  {
    if found.Some? {
      var t := s.objs[found.value].sess.token;
      assert t in ViewOf(s) && ViewOf(s)[t].tokenID == id;
    } else if SomeSession(ViewOf(s), id) {
      var t :| t in ViewOf(s) && ViewOf(s)[t].tokenID == id;
      assert InTable(s, s.table[t]);
    }
  }

  /** Reading a datagram is `ServeFast`: ignored, left to the write lock, or routed to where the main loop writes. */
  lemma ReceiveIsServeFast(h: Hash, s: State, src: Addr, datagram: Bytes, found: Option<nat>) returns (step: FastStep)
    requires WF(h, s) && Enabled(s, Receive(src, datagram, found))
    ensures var r := Next(h, s, Receive(src, datagram, found));
            && FastOutcome(ViewOf(s), ViewOf(r), src, datagram, s.now, step)
            && (step.Ignored? <==> found.None?)
            && (step.NeedsLock? ==> r.main == Between(src, datagram, |s.objs|))
            && (step.Done? ==> r.main == AfterRoute(found.value, src, step.route, datagram))
  {
    if Parse(datagram).Frame? {
      FoundIsSome(h, s, Parse(datagram).id, found);
    }
    if found.None? {
      return Ignored;
    }
    var o := found.value;
    var sess := s.objs[o].sess;
    RoutedView(h, s, o, sess);
    if NeedsWrite(sess, src) {
      return NeedsLock;
    }
    var routed := FastPath(sess, src, s.now);
    RoutedView(h, s, o, routed.session);
    step := FastStep.Done(routed.route);
  }

  /** Taking the write lock is `ServeSlow`, with the lookup of that moment. */
  lemma RelockIsServeSlow(h: Hash, s: State, found: Option<nat>) returns (route: Route)
    requires WF(h, s) && Enabled(s, Relock(found))
    ensures var r := Next(h, s, Relock(found));
            && SlowOutcome(ViewOf(s), ViewOf(r), s.main.src, Parse(s.main.datagram).id, s.now, route)
            && r.main == if found.Some? then AfterRoute(found.value, s.main.src, route, s.main.datagram) else Listening
  {
    FoundIsSome(h, s, Parse(s.main.datagram).id, found);
    if found.None? {
      return Drop;
    }
    var o := found.value;
    var routed := SlowPath(s.objs[o].sess, s.main.src, s.now);
    RoutedView(h, s, o, routed.session);
    route := routed.route;
  }

  /** A turn of a raw loop that nothing interrupts is `ServeRaw`, on the map's sessions and on what goes out. */
  lemma RawTurnIsServeRaw(h: Hash, s: State, o: nat, src: Addr, packet: Bytes)
    requires WF(h, s) && InTable(s, o) && s.objs[o].raw.Reading? && SocketOpen(s, o)
    ensures RawTurnCan(h, s, o, src, packet)
    ensures var r, x := RawTurned(s, o, src, packet), s.objs[o].sess;
            && ViewOf(r) == ViewOf(s)[x.token := RawServed(x, src, s.now)]
            && r.bound == s.bound
            && RawOutput(r.objs[o].raw) == OutboundOf(RawServed(x, src, s.now), packet)
  {
    RawTurn(h, s, o, src, packet);
    RawTurnedView(h, s, o, src, packet);
  }

  lemma RawTurnedView(h: Hash, s: State, o: nat, src: Addr, packet: Bytes)
    requires WF(h, s) && InTable(s, o)
    ensures var x := s.objs[o].sess;
            ViewOf(RawTurned(s, o, src, packet)) == ViewOf(s)[x.token := RawServed(x, src, s.now)]
  {
    var served := RawServed(s.objs[o].sess, src, s.now);
    RoutedView(h, s, o, served);
    SameSessionsSameView(RawTurned(s, o, src, packet), SetSession(s, o, served));
  }

  lemma SameSessionsSameView(a: State, b: State)
    requires a.table == b.table && |a.objs| == |b.objs|
    requires forall o :: 0 <= o < |a.objs| ==> a.objs[o].sess == b.objs[o].sess
    ensures ViewOf(a) == ViewOf(b)
  {
  }

  /** What a raw loop is about to write. */
  function RawOutput(raw: RawLoop): Option<(Addr, Bytes)> {
    if raw.Sending? && raw.write.route.ViaMain? then Some((raw.write.route.dst, raw.write.bytes)) else None
  }
}
