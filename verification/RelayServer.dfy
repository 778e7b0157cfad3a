/** The relay server's sessions map and the operations on it, each lock region a method. */
module RelayServer {
  import opened Text
  import opened Frames
  import opened Routing
  import opened Heap

  /** What the read-locked part of the main loop makes of a datagram. */
  datatype FastStep = Ignored | NeedsLock | Done(route: Route)

  ghost predicate SomeSession(view: map<string, Session>, id: Bytes) {
    exists t :: t in view && view[t].tokenID == id
  }

  /** One session with that ID was routed by `r`, and every other session is as before. */
  ghost predicate RoutedOne(before: map<string, Session>, after: map<string, Session>, id: Bytes,
                            r: Session -> Routed, route: Route) {
    exists t :: t in before && before[t].tokenID == id
                && after == before[t := r(before[t]).session] && route == r(before[t]).route
  }

  /** What the part of the main loop under the read lock may do. */
  ghost predicate FastOutcome(before: map<string, Session>, after: map<string, Session>, src: Addr, datagram: Bytes,
                              now: int, step: FastStep)
  {
    match step
    case Ignored => (Parse(datagram).NotRelayed? || !SomeSession(before, Parse(datagram).id)) && after == before
    case NeedsLock =>
      && Parse(datagram).Frame? && after == before
      && exists t :: t in before && before[t].tokenID == Parse(datagram).id && NeedsWrite(before[t], src)
    case Done(route) =>
      && Parse(datagram).Frame?
      && exists t :: t in before && before[t].tokenID == Parse(datagram).id && !NeedsWrite(before[t], src)
                     && after == before[t := FastPath(before[t], src, now).session]
                     && route == FastPath(before[t], src, now).route
  }

  /** What the part under the write lock may do. */
  ghost predicate SlowOutcome(before: map<string, Session>, after: map<string, Session>, src: Addr, id: Bytes, now: int,
                              route: Route)
  {
    if SomeSession(before, id) then RoutedOne(before, after, id, s => SlowPath(s, src, now), route)
    else after == before && route == Drop
  }

  /** The session a registration makes: with its raw port unless the port is taken or refused. */
  function RegisteredSession(h: Hash, token: string, sessionID: string, bound: set<nat>, refused: bool,
                             now: int): Session {
    var port := RawPortForToken(h, token);
    NewSession(h, token, sessionID, if !refused && port !in bound then Some(port) else None, now)
  }

  function RegisteredPorts(h: Hash, token: string, bound: set<nat>, refused: bool): set<nat> {
    if refused then bound else bound + {RawPortForToken(h, token)}
  }

  function InvalidatedPorts(view: map<string, Session>, bound: set<nat>, token: string): set<nat> {
    if token in view && view[token].rawConn.Some? then bound - {view[token].rawConn.value} else bound
  }

  /** The session after a packet on its raw port: alive, and with its sender as the renter. */
  function RawServed(s: Session, src: Addr, now: int): Session {
    s.(lastActive := now, renterAddr := Some(src))
  }

  /** What a raw packet of the renter makes the relay send, and to whom. */
  function OutboundOf(s: Session, packet: Bytes): Option<(Addr, Bytes)> {
    if s.peerA.Some? then Some((s.peerA.value, RawInbound(s, packet))) else None
  }

  predicate IsIdle(s: Session, now: int) {
    now - s.lastActive > IDLE_TIMEOUT
  }

  ghost function Restrict(view: map<string, Session>, kept: set<string>): map<string, Session> {
    map t | t in view && t in kept :: view[t]
  }

  ghost function Survivors(view: map<string, Session>, now: int): map<string, Session> {
    map t | t in view && !IsIdle(view[t], now) :: view[t]
  }

  ghost function IdlePorts(view: map<string, Session>, now: int): set<nat> {
    set t | t in view && IsIdle(view[t], now) && view[t].rawConn.Some? :: view[t].rawConn.value
  }

  /** The raw ports of the sessions of `view` that are no longer among `kept`. */
  ghost function ClosedPorts(view: map<string, Session>, kept: set<string>): set<nat> {
    set t | t in view && t !in kept && view[t].rawConn.Some? :: view[t].rawConn.value
  }

  lemma ClosedOneMore(view: map<string, Session>, kept: set<string>, t: string)
    requires t in view && t in kept
    ensures ClosedPorts(view, kept - {t}) ==
            ClosedPorts(view, kept) + if view[t].rawConn.Some? then {view[t].rawConn.value} else {}
  {
    var c := view[t].rawConn;
    if c.Some? {
      assert c.value in ClosedPorts(view, kept - {t}) by { assert t in view && t !in kept - {t}; }
    }
    forall p | p in ClosedPorts(view, kept)
      ensures p in ClosedPorts(view, kept - {t})
    {
      var u :| u in view && u !in kept && view[u].rawConn == Some(p);
      assert u !in kept - {t};
    }
  }

  /** The sweep has gone over every session but those of `todo`. */
  ghost predicate SweptExcept(before: map<string, Session>, kept: set<string>, todo: set<string>, now: int) {
    && (forall t :: t in before.Keys - kept ==> IsIdle(before[t], now))
    && (forall t :: t in before.Keys && t in kept - todo ==> !IsIdle(before[t], now))
  }

  lemma SweptOneMore(before: map<string, Session>, kept: set<string>, todo: set<string>, t: string, now: int)
    requires SweptExcept(before, kept, todo, now) && t in todo && todo <= kept <= before.Keys
    ensures IsIdle(before[t], now) ==>
              && SweptExcept(before, kept - {t}, todo - {t}, now)
              && Restrict(before, kept - {t}) == Restrict(before, kept) - {t}
              && ClosedPorts(before, kept - {t}) ==
                 ClosedPorts(before, kept) + if before[t].rawConn.Some? then {before[t].rawConn.value} else {}
    ensures !IsIdle(before[t], now) ==> SweptExcept(before, kept, todo - {t}, now)
  {
    ClosedOneMore(before, kept, t);
  }

  lemma SweepDone(before: map<string, Session>, kept: set<string>, now: int)
    requires kept <= before.Keys && SweptExcept(before, kept, {}, now)
    ensures Restrict(before, kept) == Survivors(before, now)
    ensures ClosedPorts(before, kept) == IdlePorts(before, now)
  {
  }

  class Server {
    const hash: Hash
    var sessions: map<string, Ref<Session>>
    /** The raw ports this process has bound. */
    var bound: set<nat>

    ghost function View(): map<string, Session>
      reads this, sessions.Values
    {
      map t | t in sessions :: sessions[t].v
    }

    ghost predicate Valid()
      reads this, sessions.Values
    {
      forall t :: t in sessions ==> sessions[t].v.token == t && sessions[t].v.tokenID == TokenID(hash, t)
    }

    constructor (hash: Hash)
      ensures this.hash == hash && Valid() && View() == map[] && bound == {}
    {
      this.hash := hash;
      sessions := map[];
      bound := {};
    }

    /** `refused`: the system has other reasons not to bind the port. */
    method RegisterSession(token: string, sessionID: string, now: int, refused: bool)
      requires Valid()
      modifies this
      ensures Valid()
      ensures View() == old(View())[token := RegisteredSession(hash, token, sessionID, old(bound), refused, now)]
      ensures bound == RegisteredPorts(hash, token, old(bound), refused)
      ensures token in sessions && fresh(sessions[token])
      ensures forall t :: t in old(sessions) && t != token ==> t in sessions && sessions[t] == old(sessions[t])
    {
      var port := RawPortForToken(hash, token);
      var rawConn := None;
      if !refused && port !in bound {
        rawConn := Some(port);
        bound := bound + {port};
      }
      var sess := new Ref(NewSession(hash, token, sessionID, rawConn, now));
      sessions := sessions[token := sess];
      assert View() == old(View())[token := sess.v];
    }

    method FindSessionByTokenID(id: Bytes) returns (r: Ref?<Session>)
      requires Valid()
      ensures r == null <==> !SomeSession(View(), id)
      ensures r != null ==> r.v.tokenID == id && r.v.token in sessions && sessions[r.v.token] == r
    {
      var todo := sessions.Keys;
      while todo != {}
        invariant todo <= sessions.Keys
        invariant forall t :: t in sessions && t !in todo ==> sessions[t].v.tokenID != id
      {
        var t :| t in todo;
        if sessions[t].v.tokenID == id {
          assert t in View() && View()[t].tokenID == id;
          return sessions[t];
        }
        todo := todo - {t};
      }
      r := null;
    }

    /** The part of the main loop under the read lock. */
    method ServeFast(src: Addr, datagram: Bytes, now: int) returns (step: FastStep)
      requires Valid()
      modifies sessions.Values
      ensures Valid() && sessions == old(sessions) && bound == old(bound)
      ensures FastOutcome(old(View()), View(), src, datagram, now, step)
    {
      var frame := Parse(datagram);
      if frame.NotRelayed? {
        return Ignored;
      }
      var ref := FindSessionByTokenID(frame.id);
      if ref == null {
        return Ignored;
      }
      ghost var t := ref.v.token;
      assert t in View() && View()[t] == ref.v;
      if NeedsWrite(ref.v, src) {
        return NeedsLock;
      }
      var r := FastPath(ref.v, src, now);
      ref.v := r.session;
      assert View() == old(View())[t := r.session];
      step := Done(r.route);
    }

    /** The part of the main loop under the write lock, with its own lookup. */
    method ServeSlow(src: Addr, datagram: Bytes, now: int) returns (route: Route)
      requires Valid() && Parse(datagram).Frame?
      modifies sessions.Values
      ensures Valid() && sessions == old(sessions) && bound == old(bound)
      ensures SlowOutcome(old(View()), View(), src, Parse(datagram).id, now, route)
    {
      var ref := FindSessionByTokenID(Parse(datagram).id);
      if ref == null {
        return Drop;
      }
      ghost var t := ref.v.token;
      assert t in View() && View()[t] == ref.v;
      var r := SlowPath(ref.v, src, now);
      ref.v := r.session;
      assert View() == old(View())[t := r.session];
      route := r.route;
    }

    /** One turn of a raw loop that nothing interrupts, for a session of the map. */
    method ServeRaw(token: string, src: Addr, packet: Bytes, now: int) returns (out: Option<(Addr, Bytes)>)
      requires Valid() && token in sessions
      modifies sessions[token]
      ensures Valid() && sessions == old(sessions) && bound == old(bound)
      ensures View() == old(View())[token := RawServed(old(View())[token], src, now)]
      ensures out == OutboundOf(RawServed(old(View())[token], src, now), packet)
    {
      var sess := sessions[token];
      assert forall t :: t in sessions && t != token ==> sessions[t] != sess;
      StampRaw(sess, now);
      RememberRenter(sess, src);
      assert sess.v == RawServed(old(sess.v), src, now);
      out := RawOutbound(sess, packet);
    }

    method StampRaw(ref: Ref<Session>, now: int)
      modifies ref
      ensures ref.v == old(ref.v).(lastActive := now)
    {
      ref.v := ref.v.(lastActive := now);
    }

    method RememberRenter(ref: Ref<Session>, src: Addr)
      modifies ref
      ensures ref.v == old(ref.v).(renterAddr := Some(src))
    {
      ref.v := ref.v.(renterAddr := Some(src));
    }

    /** What goes to the provider, if it is known. */
    method RawOutbound(ref: Ref<Session>, packet: Bytes) returns (out: Option<(Addr, Bytes)>)
      ensures out == OutboundOf(ref.v, packet)
    {
      match ref.v.peerA
      case None => out := None;
      case Some(a) =>
        var pkt := Header(ref.v.tokenID);
        pkt := pkt + packet;
        out := Some((a, pkt));
    }

    /** `InvalidateSession` and `RemoveSession`. */
    method InvalidateSession(token: string)
      requires Valid()
      modifies this
      ensures Valid()
      ensures View() == old(View()) - {token}
      ensures bound == InvalidatedPorts(old(View()), old(bound), token)
    {
      if token in sessions {
        DeleteAndClose(token);
      } else {
        assert View() - {token} == View();
      }
    }

    method DeleteAndClose(token: string)
      requires Valid() && token in sessions
      modifies this
      ensures Valid()
      ensures View() == old(View()) - {token} && View().Keys == old(View()).Keys - {token}
      ensures bound == if old(View())[token].rawConn.Some?
                       then old(bound) - {old(View())[token].rawConn.value} else old(bound)
    {
      var sess := sessions[token];
      sessions := sessions - {token};
      if sess.v.rawConn.Some? {
        bound := bound - {sess.v.rawConn.value};
      }
    }

    /** One sweep of the reaper, deleting from the map while it walks over it. */
    method ReapIdleSessions(now: int)
      requires Valid()
      modifies this
      ensures Valid()
      ensures View() == Survivors(old(View()), now)
      ensures bound == old(bound) - IdlePorts(old(View()), now)
    {
      ghost var before, ports := View(), bound;
      ghost var kept := before.Keys;
      var todo := sessions.Keys;
      assert View() == Restrict(before, kept);
      while todo != {}
        invariant Valid() && View() == Restrict(before, kept) && todo <= kept <= before.Keys
        invariant SweptExcept(before, kept, todo, now)
        invariant bound == ports - ClosedPorts(before, kept)
      {
        var t :| t in todo;
        SweptOneMore(before, kept, todo, t, now);
        assert t in View();
        todo := todo - {t};
        kept := if IsIdle(before[t], now) then kept - {t} else kept;
        SweepOne(t, now);
      }
      SweepDone(before, kept, now);
    }

    method SweepOne(token: string, now: int)
      requires Valid() && token in sessions
      modifies this
      ensures Valid()
      ensures View() == if IsIdle(old(View())[token], now) then old(View()) - {token} else old(View())
      ensures bound == if IsIdle(old(View())[token], now) && old(View())[token].rawConn.Some?
                       then old(bound) - {old(View())[token].rawConn.value} else old(bound)
    {
      if now - sessions[token].v.lastActive > IDLE_TIMEOUT {
        DeleteAndClose(token);
      }
    }
  }
}
