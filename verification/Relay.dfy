/** Packets of the relay: the 20-byte header, and what SHA-256 is used for. */
module Frames {

  type Byte = x: int | 0 <= x < 256
  type Bytes = seq<Byte>

  /** A SHA-256 digest; the hash itself is a parameter of every operation that needs it. */
  type Digest = d: Bytes | |d| == 32 witness seq(32, _ => 0)
  type Hash = string -> Digest

  const MAGIC: Bytes := [0x50, 0x43, 0x52, 0x4c] // "PCRL"
  const TOKEN_ID_LEN := 16
  const HEADER_LEN := 20
  const RAW_BASE_PORT := 44000
  const RAW_PORT_RANGE := 1000

  function TokenID(h: Hash, token: string): (id: Bytes)
    ensures |id| == TOKEN_ID_LEN
  {
    h(token)[..TOKEN_ID_LEN]
  }

  function BigEndian32(b: Bytes): int
    requires |b| >= 4
  {
    var b0: int, b1: int, b2: int, b3: int := b[0], b[1], b[2], b[3];
    ((b0 * 256 + b1) * 256 + b2) * 256 + b3
  }

  function RawPortForToken(h: Hash, token: string): (port: nat)
    ensures RAW_BASE_PORT <= port < RAW_BASE_PORT + RAW_PORT_RANGE
  {
    RAW_BASE_PORT + BigEndian32(h(token)) % RAW_PORT_RANGE
  }

  function Header(id: Bytes): Bytes {
    MAGIC + id
  }

  datatype Frame = NotRelayed | Frame(id: Bytes, payload: Bytes)

  /** What the main loop of the relay reads out of a datagram. */
  function Parse(datagram: Bytes): Frame {
    if |datagram| < HEADER_LEN || datagram[..4] != MAGIC then NotRelayed
    else Frame(datagram[4..HEADER_LEN], datagram[HEADER_LEN..])
  }

  /** What the relay client makes of a packet from WireGuard. */
  function Wrap(id: Bytes, packet: Bytes): Bytes {
    Header(id) + packet
  }

  lemma ParseWrap(id: Bytes, packet: Bytes)
    requires |id| == TOKEN_ID_LEN
    ensures Parse(Wrap(id, packet)) == Frame(id, packet)
  {
    var d := Wrap(id, packet);
    assert d[..4] == MAGIC && d[4..HEADER_LEN] == id && d[HEADER_LEN..] == packet;
  }

  /** The header in bytes: the four letters and the first 16 bytes of the token's digest. */
  lemma HeaderBytes(h: Hash, token: string)
    ensures var header := Header(TokenID(h, token));
            && |header| == 20
            && (forall i :: 0 <= i < 4 ==> header[i] == "PCRL"[i] as int)
            && (forall i :: 0 <= i < 16 ==> header[4 + i] == h(token)[i])
  {
  }

  /** What the relay takes for a packet: at least a header long, and beginning with the four letters. */
  lemma ParsesIff(d: Bytes)
    ensures Parse(d).Frame? <==> |d| >= 20 && forall i :: 0 <= i < 4 ==> d[i] == "PCRL"[i] as int
  {
    if |d| >= 20 {
      assert d[..4] == MAGIC <==> d[0] == MAGIC[0] && d[1] == MAGIC[1] && d[2] == MAGIC[2] && d[3] == MAGIC[3];
      assert "PCRL"[0] as int == 0x50 && "PCRL"[1] as int == 0x43;
      assert "PCRL"[2] as int == 0x52 && "PCRL"[3] as int == 0x4c;
    }
  }

  /** The raw port from the first four bytes of the digest, the first one the most significant. */
  lemma RawPortBytes(h: Hash, token: string)
    ensures var d := h(token);
            var n := d[0] as int * 0x100_0000 + d[1] as int * 0x1_0000 + d[2] as int * 0x100 + d[3] as int;
            RawPortForToken(h, token) == 44000 + n % 1000
  {
  }

  /** Only wrapped packets parse, and the parse loses nothing. */
  lemma WrapParse(d: Bytes)
    requires Parse(d).Frame?
    ensures |Parse(d).id| == TOKEN_ID_LEN
    ensures d == Wrap(Parse(d).id, Parse(d).payload)
  {
    assert d == d[..4] + d[4..HEADER_LEN] + d[HEADER_LEN..];
  }
}

/** One relay session and where a packet for it goes. */
module Routing {
  import opened Text
  import opened Frames

  /** A UDP address in printed form; the relay compares addresses by that form. */
  type Addr = string

  /** Times and durations are in nanoseconds. */
  const SECOND := 1_000_000_000
  const IDLE_TIMEOUT := 60 * SECOND
  const SWEEP_PERIOD := 30 * SECOND

  /** `rawConn` is the port of the per-session raw socket. */
  datatype Session = Session(
    sessionID: string,
    token: string,
    tokenID: Bytes,
    peerA: Option<Addr>,
    peerB: Option<Addr>,
    rawConn: Option<nat>,
    renterAddr: Option<Addr>,
    created: int,
    lastActive: int)

  datatype Route = Drop | ViaMain(dst: Addr) | ViaRaw(port: nat, dst: Addr)

  /** A session as `RegisterSession` builds it. */
  function NewSession(h: Hash, token: string, sessionID: string, rawConn: Option<nat>, now: int): Session {
    Session(sessionID, token, TokenID(h, token), None, None, rawConn, None, now, now)
  }

  predicate NeedsWrite(s: Session, src: Addr) {
    || s.peerA.None?
    || (s.peerB.None? && s.renterAddr.None? && src != s.peerA.value)
  }

  /** Provider to renter: the raw path if there is one, else the second relay client, if any. */
  function TowardsRenter(s: Session): Route {
    if s.rawConn.Some? && s.renterAddr.Some? then ViaRaw(s.rawConn.value, s.renterAddr.value)
    else if s.peerB.Some? then ViaMain(s.peerB.value)
    else Drop
  }

  datatype Routed = Routed(session: Session, route: Route)

  /** The hot path, under the read lock only. */
  function FastPath(s: Session, src: Addr, now: int): Routed
    requires !NeedsWrite(s, src)
  {
    var route :=
      if src == s.peerA.value then TowardsRenter(s)
      else if s.peerB == Some(src) then ViaMain(s.peerA.value)
      else Drop;
    Routed(s.(lastActive := now), route)
  }

  /** The slow path, under the write lock. */
  function SlowPath(s: Session, src: Addr, now: int): Routed {
    if s.peerA.None? then
      Routed(s.(peerA := Some(src), lastActive := now), Drop)
    else if s.peerB.None? && s.renterAddr.None? && src != s.peerA.value then
      Routed(s.(peerB := Some(src), lastActive := now), ViaMain(s.peerA.value))
    else if src == s.peerA.value then
      Routed(s.(lastActive := now), TowardsRenter(s))
    else if s.peerB == Some(src) then
      Routed(s.(lastActive := now), ViaMain(s.peerA.value))
    else
      Routed(s, Drop)
  }

  /** Neither a peer of the session nor able to become one. */
  predicate Stranger(s: Session, src: Addr) {
    && s.peerA.Some? && src != s.peerA.value
    && s.peerB != Some(src)
    && (s.peerB.Some? || s.renterAddr.Some?)
  }

  /** The fast path is the slow path, except that it stamps the session on a stranger's packet too. */
  lemma FastRefinesSlow(s: Session, src: Addr, now: int)
    requires !NeedsWrite(s, src)
    ensures var fast, slow := FastPath(s, src, now), SlowPath(s, src, now);
            && fast.route == slow.route
            && fast.session == slow.session.(lastActive := now)
            && (fast.session != slow.session ==> Stranger(s, src) && fast.route == Drop)
  {
  }

  /** The write lock is asked for exactly when the packet's sender is to be remembered as a peer. */
  lemma NeedsWriteIff(s: Session, src: Addr, now: int)
    ensures NeedsWrite(s, src) <==>
            var r := SlowPath(s, src, now).session; r.peerA != s.peerA || r.peerB != s.peerB
  {
  }

  /** What every session in the relay satisfies: two distinct peers, the first known first. */
  predicate PeersOk(s: Session) {
    s.peerB.Some? ==> s.peerA.Some? && s.peerA != s.peerB
  }

  /** Under the write lock a slot is filled at most once, `peerB` never once a raw renter is known, and
      no packet goes back over the main socket to where it came from. */
  lemma SlowPathKeeps(s: Session, src: Addr, now: int)
    requires PeersOk(s)
    ensures var r := SlowPath(s, src, now);
            && PeersOk(r.session)
            && (s.peerA.Some? ==> r.session.peerA == s.peerA)
            && (s.peerB.Some? || s.renterAddr.Some? ==> r.session.peerB == s.peerB)
            && r.session == s.(peerA := r.session.peerA, peerB := r.session.peerB, lastActive := r.session.lastActive)
            && (r.route.ViaMain? ==> r.route.dst != src)
            && (r.route != Drop ==> !Stranger(s, src))
  {
  }

  /** The destination is always an address the session has learned. */
  lemma RouteIsLearned(s: Session, src: Addr, now: int)
    ensures var r := SlowPath(s, src, now);
            r.route != Drop ==> Some(r.route.dst) in {r.session.peerA, r.session.peerB, r.session.renterAddr}
  {
  }

  /** What the relay sends on for a datagram it routes somewhere. */
  function Forwarded(datagram: Bytes): Bytes {
    match Parse(datagram)
    case NotRelayed => []
    case Frame(_, payload) => payload
  }

  /** What `serveRaw` sends to the provider for a raw packet of the renter. */
  function RawInbound(s: Session, packet: Bytes): Bytes {
    Header(s.tokenID) + packet
  }
}
