/** The relay server as a machine whose steps are the regions between lock operations and system
    calls: the main loop, one raw loop per session, registrations, removals and sweeps interleave. */
module RelayMachine {
  import opened Text
  import opened Frames
  import opened Routing

  datatype Origin = FromMain | FromRaw

  /** A datagram the relay writes for session object `obj`, caused by a packet from `src`. */
  datatype Write = Write(obj: nat, origin: Origin, src: Addr, route: Route, bytes: Bytes)

  /** The main loop: at `ReadFromUDP`, between the two locks, or at `WriteToUDP`. `seen` is the number
      of session objects that existed when the packet was read. */
  datatype MainLoop =
    | Listening
    | Between(src: Addr, datagram: Bytes, seen: nat)
    | Forwarding(write: Write)

  datatype RawLoop =
    | NotStarted
    | Reading
    | Got(src: Addr, packet: Bytes)
    | Recorded(src: Addr, packet: Bytes)
    | Sending(write: Write)
    | Stopped

  datatype Object = Object(sess: Session, raw: RawLoop, installedAt: int)

  /** `objs` holds every session object ever created, `table` the sessions map, `bound` the raw ports
      the process has bound. `installing` are objects of a `RegisterSession` that has bound its port but
      not yet locked the map; `closing` those taken out of the map whose socket is not closed yet. */
  datatype State = State(
    now: int,
    sweptAt: int,
    table: map<string, nat>,
    objs: seq<Object>,
    bound: map<nat, nat>,
    main: MainLoop,
    installing: set<nat>,
    closing: set<nat>,
    sent: seq<Write>)

  datatype Event =
    | Wait(d: nat)
    | Bind(token: string, sessionID: string, refused: bool)
    | Install(o: nat)
    | Unlink(token: string)
    | CloseRaw(o: nat)
    | Sweep
    | Receive(src: Addr, datagram: Bytes, found: Option<nat>)
    | Relock(found: Option<nat>)
    | Forward
    | RawReceive(o: nat, src: Addr, packet: Bytes)
    | RawRecord(o: nat)
    | RawPeer(o: nat)
    | RawSend(o: nat)
    | RawFail(o: nat)

  const INIT := State(0, 0, map[], [], map[], Listening, {}, {}, [])

  ghost predicate ObjectOk(h: Hash, x: Object) {
    && x.sess.tokenID == TokenID(h, x.sess.token)
    && (x.sess.rawConn.Some? ==> x.sess.rawConn.value == RawPortForToken(h, x.sess.token))
  }

  ghost predicate WF(h: Hash, s: State) {
    && (forall o :: 0 <= o < |s.objs| ==> ObjectOk(h, s.objs[o]))
    && (forall t :: t in s.table ==> s.table[t] < |s.objs| && s.objs[s.table[t]].sess.token == t)
    && (forall o :: o in s.installing ==> o < |s.objs|)
    && (forall o :: o in s.closing ==> o < |s.objs|)
    && (forall p :: p in s.bound ==> s.bound[p] < |s.objs| && s.objs[s.bound[p]].sess.rawConn == Some(p))
    && (s.main.Forwarding? ==> s.main.write.obj < |s.objs|)
  }

  predicate SocketOpen(s: State, o: nat)
    requires o < |s.objs|
  {
    var c := s.objs[o].sess.rawConn;
    c.Some? && c.value in s.bound && s.bound[c.value] == o
  }

  /** `o` is the session the map holds for its token. */
  predicate InTable(s: State, o: nat) {
    o < |s.objs| && s.objs[o].sess.token in s.table && s.table[s.objs[o].sess.token] == o
  }

  function Unbind(s: State, o: nat): map<nat, nat> {
    map p | p in s.bound && s.bound[p] != o :: s.bound[p]
  }

  /** `findSessionByTokenID` may return any session of the map with that ID, and nil only if there is none. */
  ghost predicate Finds(s: State, id: Bytes, found: Option<nat>) {
    match found
    case Some(o) => InTable(s, o) && s.objs[o].sess.tokenID == id
    case None => forall o :: 0 <= o < |s.objs| && InTable(s, o) ==> s.objs[o].sess.tokenID != id
  }

  ghost predicate Enabled(s: State, e: Event) {
    match e
    case Wait(_) => true
    case Bind(_, _, _) => true
    case Install(o) => o in s.installing && o < |s.objs|
    case Unlink(_) => true
    case CloseRaw(o) => o in s.closing
    case Sweep => true
    case Receive(_, datagram, found) =>
      s.main.Listening? && (if Parse(datagram).Frame? then Finds(s, Parse(datagram).id, found) else found.None?)
    case Relock(found) =>
      s.main.Between? && Parse(s.main.datagram).Frame? && Finds(s, Parse(s.main.datagram).id, found)
    case Forward => s.main.Forwarding? && s.main.write.obj < |s.objs|
    case RawReceive(o, _, _) => o < |s.objs| && s.objs[o].raw.Reading? && SocketOpen(s, o)
    case RawRecord(o) => o < |s.objs| && s.objs[o].raw.Got?
    case RawPeer(o) => o < |s.objs| && s.objs[o].raw.Recorded?
    case RawSend(o) => o < |s.objs| && s.objs[o].raw.Sending?
    case RawFail(o) => o < |s.objs| && s.objs[o].raw.Reading?
  }

  function SetSession(s: State, o: nat, sess: Session): State
    requires o < |s.objs|
  {
    s.(objs := s.objs[o := s.objs[o].(sess := sess)])
  }

  function SetRaw(s: State, o: nat, raw: RawLoop): State
    requires o < |s.objs|
  {
    s.(objs := s.objs[o := s.objs[o].(raw := raw)])
  }

  /** The main loop after routing a packet: at the write, or back at the read. */
  function AfterRoute(o: nat, src: Addr, route: Route, datagram: Bytes): MainLoop {
    if route.Drop? then Listening else Forwarding(Write(o, FromMain, src, route, Forwarded(datagram)))
  }

  function BindStep(h: Hash, s: State, token: string, sessionID: string, refused: bool): State {
    var port := RawPortForToken(h, token);
    var ok := !refused && port !in s.bound;
    var sess := NewSession(h, token, sessionID, if ok then Some(port) else None, s.now);
    s.(objs := s.objs + [Object(sess, if ok then Reading else NotStarted, s.now)],
       bound := if ok then s.bound[port := |s.objs|] else s.bound,
       installing := s.installing + {|s.objs|})
  }

  function InstallStep(s: State, o: nat): State
    requires o < |s.objs|
  {
    s.(table := s.table[s.objs[o].sess.token := o],
       objs := s.objs[o := s.objs[o].(installedAt := s.now)],
       installing := s.installing - {o})
  }

  function UnlinkStep(s: State, token: string): State {
    if token !in s.table then s
    else
      var o := s.table[token];
      s.(table := s.table - {token},
         closing := if o < |s.objs| && s.objs[o].sess.rawConn.Some? then s.closing + {o} else s.closing)
  }

  predicate Idle(s: State, o: nat) {
    o < |s.objs| && s.now - s.objs[o].sess.lastActive > IDLE_TIMEOUT
  }

  function SweepStep(s: State): State {
    s.(sweptAt := s.now,
       table := map t | t in s.table && !Idle(s, s.table[t]) :: s.table[t],
       bound := map p | p in s.bound && !(InTable(s, s.bound[p]) && Idle(s, s.bound[p])) :: s.bound[p])
  }

  function ReceiveStep(s: State, src: Addr, datagram: Bytes, found: Option<nat>): State
    requires found.Some? ==> found.value < |s.objs|
  {
    match found
    case None => s
    case Some(o) =>
      var sess := s.objs[o].sess;
      if NeedsWrite(sess, src) then s.(main := Between(src, datagram, |s.objs|))
      else
        var r := FastPath(sess, src, s.now);
        SetSession(s, o, r.session).(main := AfterRoute(o, src, r.route, datagram))
  }

  function RelockStep(s: State, found: Option<nat>): State
    requires s.main.Between? && (found.Some? ==> found.value < |s.objs|)
  {
    match found
    case None => s.(main := Listening)
    case Some(o) =>
      var r := SlowPath(s.objs[o].sess, s.main.src, s.now);
      SetSession(s, o, r.session).(main := AfterRoute(o, s.main.src, r.route, s.main.datagram))
  }

  /** A write on a raw socket that was closed meanwhile fails and the error is ignored. */
  function ForwardStep(s: State): State
    requires s.main.Forwarding? && s.main.write.obj < |s.objs|
  {
    var w := s.main.write;
    s.(main := Listening, sent := if w.route.ViaMain? || SocketOpen(s, w.obj) then s.sent + [w] else s.sent)
  }

  predicate IsRaw(e: Event) {
    e.RawReceive? || e.RawRecord? || e.RawPeer? || e.RawSend? || e.RawFail?
  }

  function RawStep(s: State, e: Event): State
    requires IsRaw(e)
    requires e.o < |s.objs|
    requires e.RawRecord? ==> s.objs[e.o].raw.Got?
    requires e.RawPeer? ==> s.objs[e.o].raw.Recorded?
    requires e.RawSend? ==> s.objs[e.o].raw.Sending?
  {
    var sess, raw := s.objs[e.o].sess, s.objs[e.o].raw;
    match e
    case RawReceive(o, src, packet) => SetRaw(SetSession(s, o, sess.(lastActive := s.now)), o, Got(src, packet))
    case RawRecord(o) => SetRaw(SetSession(s, o, sess.(renterAddr := Some(raw.src))), o, Recorded(raw.src, raw.packet))
    case RawPeer(o) =>
      if sess.peerA.None? then SetRaw(s, o, Reading)
      else SetRaw(s, o, Sending(Write(o, FromRaw, raw.src, ViaMain(sess.peerA.value), RawInbound(sess, raw.packet))))
    case RawSend(o) => SetRaw(s, o, Reading).(sent := s.sent + [raw.write])
    case RawFail(o) => SetRaw(s, o, Stopped).(bound := Unbind(s, o))
  }

  ghost function Next(h: Hash, s: State, e: Event): State
    requires Enabled(s, e)
  {
    match e
    case Wait(d) => s.(now := s.now + d)
    case Bind(token, sessionID, refused) => BindStep(h, s, token, sessionID, refused)
    case Install(o) => InstallStep(s, o)
    case Unlink(token) => UnlinkStep(s, token)
    case CloseRaw(o) => s.(bound := Unbind(s, o), closing := s.closing - {o})
    case Sweep => SweepStep(s)
    case Receive(src, datagram, found) => ReceiveStep(s, src, datagram, found)
    case Relock(found) => RelockStep(s, found)
    case Forward => ForwardStep(s)
    case _ => RawStep(s, e)
  }

  /** What a raw loop has done when it has read a packet, remembered the renter and looked for the provider, with
      nothing in between: the session is stamped and knows the renter, and what goes to the provider, if known, is in
      hand. */
  function RawTurned(s: State, o: nat, src: Addr, packet: Bytes): State
    requires o < |s.objs|
  {
    var sess := s.objs[o].sess.(lastActive := s.now, renterAddr := Some(src));
    var raw := if sess.peerA.None? then Reading
               else Sending(Write(o, FromRaw, src, ViaMain(sess.peerA.value), RawInbound(sess, packet)));
    s.(objs := s.objs[o := s.objs[o].(sess := sess, raw := raw)])
  }

  /** The three steps can happen one after the other, and lead there. */
  ghost predicate RawTurnCan(h: Hash, s: State, o: nat, src: Addr, packet: Bytes) {
    && Enabled(s, RawReceive(o, src, packet))
    && var s1 := Next(h, s, RawReceive(o, src, packet));
    && Enabled(s1, RawRecord(o))
    && var s2 := Next(h, s1, RawRecord(o));
    && Enabled(s2, RawPeer(o))
    && Next(h, s2, RawPeer(o)) == RawTurned(s, o, src, packet)
  }

  /** A turn of a raw loop that nothing interrupts. */
  lemma RawTurn(h: Hash, s: State, o: nat, src: Addr, packet: Bytes)
    requires o < |s.objs| && s.objs[o].raw.Reading? && SocketOpen(s, o)
    ensures RawTurnCan(h, s, o, src, packet)
  {
    var s1 := Next(h, s, RawReceive(o, src, packet));
    assert s1.objs[o] == s.objs[o].(sess := s.objs[o].sess.(lastActive := s.now), raw := Got(src, packet));
    var s2 := Next(h, s1, RawRecord(o));
    var sess := s.objs[o].sess.(lastActive := s.now, renterAddr := Some(src));
    assert s2.objs[o] == s.objs[o].(sess := sess, raw := Recorded(src, packet));
    assert s2.objs == s.objs[o := s2.objs[o]];
  }

  /** The session object an event may change. */
  function Touched(e: Event): Option<nat> {
    if e.Install? || IsRaw(e) then Some(e.o)
    else if e.Receive? || e.Relock? then e.found
    else None
  }

  lemma StepFrame(h: Hash, s: State, e: Event)
    requires Enabled(s, e)
    ensures |Next(h, s, e).objs| == |s.objs| + if e.Bind? then 1 else 0
    ensures forall o :: 0 <= o < |s.objs| && Some(o) != Touched(e) ==> Next(h, s, e).objs[o] == s.objs[o]
    ensures Touched(e).Some? ==> Touched(e).value < |s.objs|
  {
  }

  /** The state a sequence of events leads to from the start, if each of them can happen in turn. */
  ghost function Exec(h: Hash, evs: seq<Event>): Option<State> {
    if evs == [] then Some(INIT)
    else
      match Exec(h, evs[..|evs| - 1])
      case None => None
      case Some(s) => if Enabled(s, evs[|evs| - 1]) then Some(Next(h, s, evs[|evs| - 1])) else None
  }

  /** The last step of a run, taken apart. */
  lemma LastStep(h: Hash, evs: seq<Event>) returns (s: State, e: Event)
    requires evs != [] && Exec(h, evs).Some?
    ensures Exec(h, evs[..|evs| - 1]) == Some(s) && e == evs[|evs| - 1]
    ensures Enabled(s, e) && Exec(h, evs) == Some(Next(h, s, e))
  {
    s, e := Exec(h, evs[..|evs| - 1]).value, evs[|evs| - 1];
  }

  lemma OneMore(h: Hash, evs: seq<Event>, s: State, e: Event)
    requires Exec(h, evs) == Some(s) && Enabled(s, e)
    ensures Exec(h, evs + [e]) == Some(Next(h, s, e))
  {
    assert (evs + [e])[..|evs + [e]| - 1] == evs;
  }

  lemma {:induction false} PrefixRuns(h: Hash, evs: seq<Event>, n: nat)
    requires Exec(h, evs).Some? && n <= |evs|
    ensures Exec(h, evs[..n]).Some?
  {
    if n == |evs| {
      assert evs[..n] == evs;
    } else {
      var s, e := LastStep(h, evs);
      PrefixRuns(h, evs[..|evs| - 1], n);
      assert evs[..|evs| - 1][..n] == evs[..n];
    }
  }

  // ---- Every step keeps the state well formed ----

  lemma SetSessionWF(h: Hash, s: State, o: nat, sess: Session)
    requires WF(h, s) && o < |s.objs|
    requires sess.token == s.objs[o].sess.token && sess.tokenID == s.objs[o].sess.tokenID
    requires sess.rawConn == s.objs[o].sess.rawConn
    ensures WF(h, SetSession(s, o, sess))
  {
  }

  lemma SetRawWF(h: Hash, s: State, o: nat, raw: RawLoop)
    requires WF(h, s) && o < |s.objs|
    ensures WF(h, SetRaw(s, o, raw))
  {
  }

  lemma TableStepsWF(h: Hash, s: State, e: Event)
    requires WF(h, s) && Enabled(s, e)
    ensures e.Bind? ==> WF(h, BindStep(h, s, e.token, e.sessionID, e.refused))
    ensures e.Unlink? ==> WF(h, UnlinkStep(s, e.token))
    ensures e.CloseRaw? ==> WF(h, s.(bound := Unbind(s, e.o), closing := s.closing - {e.o}))
    ensures e.Sweep? ==> WF(h, SweepStep(s))
  {
  }

  lemma InstallWF(h: Hash, s: State, o: nat)
    requires WF(h, s) && o in s.installing && o < |s.objs|
    ensures WF(h, InstallStep(s, o))
  {
  }

  lemma MainStepsWF(h: Hash, s: State, e: Event)
    requires WF(h, s) && Enabled(s, e)
    ensures e.Receive? ==> WF(h, ReceiveStep(s, e.src, e.datagram, e.found))
    ensures e.Relock? ==> WF(h, RelockStep(s, e.found))
    ensures e.Forward? ==> WF(h, ForwardStep(s))
  {
    if e.Receive? && e.found.Some? {
      var o := e.found.value;
      if !NeedsWrite(s.objs[o].sess, e.src) {
        SetSessionWF(h, s, o, FastPath(s.objs[o].sess, e.src, s.now).session);
      }
    }
    if e.Relock? && e.found.Some? {
      SetSessionWF(h, s, e.found.value, SlowPath(s.objs[e.found.value].sess, s.main.src, s.now).session);
    }
  }

  lemma RawStepsWF(h: Hash, s: State, e: Event)
    requires WF(h, s) && Enabled(s, e)
    requires IsRaw(e)
    ensures WF(h, RawStep(s, e))
  {
    var sess := s.objs[e.o].sess;
    if e.RawReceive? {
      SetSessionWF(h, s, e.o, sess.(lastActive := s.now));
      SetRawWF(h, SetSession(s, e.o, sess.(lastActive := s.now)), e.o, Got(e.src, e.packet));
    } else if e.RawRecord? {
      var raw := s.objs[e.o].raw;
      SetSessionWF(h, s, e.o, sess.(renterAddr := Some(raw.src)));
      SetRawWF(h, SetSession(s, e.o, sess.(renterAddr := Some(raw.src))), e.o, Recorded(raw.src, raw.packet));
    } else if e.RawFail? {
      SetRawWF(h, s, e.o, Stopped);
    } else {
      SetRawWF(h, s, e.o, Reading);
    }
  }

  lemma StepWF(h: Hash, s: State, e: Event)
    requires WF(h, s) && Enabled(s, e)
    ensures WF(h, Next(h, s, e))
  {
    if IsRaw(e) {
      RawStepsWF(h, s, e);
    } else if e.Install? {
      InstallWF(h, s, e.o);
    } else if e.Receive? || e.Relock? || e.Forward? {
      MainStepsWF(h, s, e);
    } else {
      TableStepsWF(h, s, e);
    }
  }

  /** In every reachable state the map and the bound ports name existing objects, each bound port is the
      raw port of its session's token, and a session sits in the map under its own token. */
  lemma {:induction false} AlwaysWF(h: Hash, evs: seq<Event>)
    requires Exec(h, evs).Some?
    ensures WF(h, Exec(h, evs).value)
  {
    if evs != [] {
      var s, e := LastStep(h, evs);
      AlwaysWF(h, evs[..|evs| - 1]);
      StepWF(h, s, e);
    }
  }

  /** The state in which event `i` of a run happens. */
  lemma StepAt(h: Hash, evs: seq<Event>, i: nat) returns (s: State)
    requires i < |evs| && Exec(h, evs).Some?
    ensures Exec(h, evs[..i]).Some? && Exec(h, evs[..i]).value == s && Enabled(s, evs[i]) && WF(h, s)
    ensures Exec(h, evs[..i + 1]) == Some(Next(h, s, evs[i]))
  {
    PrefixRuns(h, evs, i + 1);
    assert evs[..i + 1][..i] == evs[..i];
    var e;
    s, e := LastStep(h, evs[..i + 1]);
    AlwaysWF(h, evs[..i]);
  }
}
