/** The columns of a session record over whole runs: each holds what the last call that wrote it gave. */
module RegistryColumns {
  import opened Text
  import opened Histories
  import opened PrefixLookup
  import opened Records
  import opened Registry
  import opened RegistryRecords

  // ---- One call ----

  /** The columns of a session that calls write. */
  datatype Column = Status | ContainerID | SSHEndpoint | ConnectionMode | WGPublicKey | WGEndpoint

  function Value(s: Session, col: Column): string {
    match col
    case Status => s.status
    case ContainerID => s.containerID
    case SSHEndpoint => s.sshEndpoint
    case ConnectionMode => s.connectionMode
    case WGPublicKey => s.wgPublicKey
    case WGEndpoint => s.wgEndpoint
  }

  function NonEmpty(x: string): Option<string> {
    if x == "" then None else Some(x)
  }

  /** What an update writes to a column: its status always, each other argument that is not empty, and the mode only
      of a session that begins to run without one. */
  function UpdateWrites(row: Session, c: Call, col: Column): Option<string>
    requires c.UpdateSessionStatus?
  {
    match col
    case Status => Some(c.status)
    case ContainerID => NonEmpty(c.containerID)
    case SSHEndpoint => NonEmpty(c.sshEndpoint)
    case WGPublicKey => NonEmpty(c.wgPublicKey)
    case WGEndpoint => NonEmpty(c.wgEndpoint)
    case ConnectionMode =>
      if c.status == "running" && c.wgEndpoint != "" && row.connectionMode == "" then Some("direct") else None
  }

  /** The session that a call names by its ID or a prefix of it. */
  ghost predicate NamedBy(b: Backend, st: State, c: Call, id: string) {
    (c.TerminateSession? || c.ReportConnectionResult? || c.UpdateSessionStatus?)
    && Resolve(b, st.db.sessions.Keys, c.session) == Found(id)
  }

  /** What a call says about the session is kept: memory keeps it even if the call is refused, the database only if it
      is neither refused nor fails to write the row. */
  predicate Kept(b: Backend, c: Call, id: string)
    requires c.TerminateSession? || c.ReportConnectionResult? || c.UpdateSessionStatus?
  {
    b == Memory || (id !in c.failing && !(c.UpdateSessionStatus? && c.status == "running" && c.wgEndpoint == ""))
  }

  /** What a call on a session says about a column, if anything. */
  function Says(row: Session, c: Call, col: Column): Option<string>
    requires c.TerminateSession? || c.ReportConnectionResult? || c.UpdateSessionStatus?
  {
    if c.UpdateSessionStatus? then UpdateWrites(row, c, col)
    else if c.TerminateSession? then if col.Status? then Some("terminated") else None
    else if col.ConnectionMode? then Some(if c.useRelay then "relay" else "holepunch")
    else None
  }

  /** What a call writes to a column of a session, if anything. */
  ghost function Writes(b: Backend, st: State, c: Call, id: string, col: Column): Option<string>
    requires id in st.db.sessions
  {
    if NamedBy(b, st, c, id) && Kept(b, c, id) then Says(st.db.sessions[id], c, col) else None
  }

  /** The columns no call writes once the session exists. */
  predicate SameOrigin(s: Session, r: Session) {
    && r.id == s.id && r.providerID == s.providerID && r.renterID == s.renterID && r.image == s.image
    && r.relayToken == s.relayToken && r.wgProviderIP == s.wgProviderIP && r.wgRenterIP == s.wgRenterIP
    && r.cpuCores == s.cpuCores && r.memoryMB == s.memoryMB && r.createdAt == s.createdAt
  }

  function After(was: string, written: Option<string>): string {
    if written.Some? then written.value else was
  }

  ghost predicate RowIsWritten(s: Session, c: Call, kept: bool, r: Session)
    requires c.TerminateSession? || c.ReportConnectionResult? || c.UpdateSessionStatus?
  {
    && SameOrigin(s, r)
    && forall col :: Value(r, col) == After(Value(s, col), if kept then Says(s, c, col) else None)
  }

  /** Every column of `id` is as the call leaves it. */
  ghost predicate ColumnsAre(b: Backend, st: State, c: Call, id: string, r: State) {
    && id in st.db.sessions && id in r.db.sessions
    && SameOrigin(st.db.sessions[id], r.db.sessions[id])
    && forall col :: Value(r.db.sessions[id], col) == After(Value(st.db.sessions[id], col), Writes(b, st, c, id, col))
  }

  lemma UpdatedSays(row: Session, c: Call)
    requires c.UpdateSessionStatus?
    ensures c.wgEndpoint == "" || c.status != "running" || row.connectionMode != "" ==>
              RowIsWritten(row, c, true, Updated(row, c))
    ensures c.wgEndpoint != "" && c.status == "running" && row.connectionMode == "" ==>
              RowIsWritten(row, c, true, Updated(row, c).(connectionMode := "direct"))
  {
  }

  lemma MergeKeepsRecord(row: Session, rec: Session)
    requires SameOrigin(row, rec)
    ensures MergeSession(row, rec) == rec
  {
  }

  lemma UpdatedRow(b: Backend, st: State, c: Call, row: Session)
    requires Ok(st) && c.UpdateSessionStatus? && row.id in st.db.sessions && st.db.sessions[row.id] == row
    ensures row.id in UpdateOf(b, st, c, row).state.db.sessions
    ensures RowIsWritten(row, c, Kept(b, c, row.id), UpdateOf(b, st, c, row).state.db.sessions[row.id])
  {
    var direct := c.wgEndpoint != "" && c.status == "running" && row.connectionMode == "";
    var rec := if direct then Updated(row, c).(connectionMode := "direct") else Updated(row, c);
    UpdatedSays(row, c);
    MergeKeepsRecord(row, rec);
    assert UpdateOf(b, st, c, row).state.db.sessions[row.id] == if Kept(b, c, row.id) then rec else row;
  }

  lemma TerminatedRow(b: Backend, st: State, c: Call, row: Session)
    requires Ok(st) && c.TerminateSession? && row.id in st.db.sessions && st.db.sessions[row.id] == row
    ensures row.id in TerminateOf(b, st, c, row).state.db.sessions
    ensures RowIsWritten(row, c, Kept(b, c, row.id), TerminateOf(b, st, c, row).state.db.sessions[row.id])
  {
  }

  lemma ReportedRow(b: Backend, st: State, c: Call, row: Session)
    requires Ok(st) && c.ReportConnectionResult? && row.id in st.db.sessions && st.db.sessions[row.id] == row
    ensures row.id in ReportOf(b, st, c, row).state.db.sessions
    ensures RowIsWritten(row, c, Kept(b, c, row.id), ReportOf(b, st, c, row).state.db.sessions[row.id])
  {
  }

  lemma NamedColumns(b: Backend, st: State, c: Call, id: string)
    requires Ok(st) && id in st.db.sessions && NamedBy(b, st, c, id)
    ensures ColumnsAre(b, st, c, id, Next(b, st, c))
  {
    var row := st.db.sessions[id];
    if c.UpdateSessionStatus? {
      UpdatedRow(b, st, c, row);
    } else if c.TerminateSession? {
      TerminatedRow(b, st, c, row);
    } else {
      ReportedRow(b, st, c, row);
    }
  }

  lemma OtherRow(b: Backend, st: State, c: Call, id: string)
    requires Ok(st) && id in st.db.sessions && (c.CreateSession? ==> c.freshID != id) && !NamedBy(b, st, c, id)
    ensures id in Next(b, st, c).db.sessions && Next(b, st, c).db.sessions[id] == st.db.sessions[id]
  {
    if !OnSessions(c) {
      OthersLeaveSessions(b, st, c);
    } else if c.CreateSession? {
      OtherSession(st, Next(b, st, c), id, c.freshID);
    } else if Resolve(b, st.db.sessions.Keys, c.session).Found? {
      OtherSession(st, Next(b, st, c), id, Resolve(b, st.db.sessions.Keys, c.session).value);
    }
  }

  /** Every call leaves in each column what it writes there or else what was there, and the origin of a session alone.
      */
  lemma ColumnsAfter(b: Backend, st: State, c: Call, id: string)
    requires Ok(st) && id in st.db.sessions && (c.CreateSession? ==> c.freshID != id)
    ensures ColumnsAre(b, st, c, id, Next(b, st, c))
  {
    if NamedBy(b, st, c, id) {
      NamedColumns(b, st, c, id);
    } else {
      OtherRow(b, st, c, id);
    }
  }

  // ---- Runs ----

  /** What call `i` of a run writes to a column. */
  ghost function WritesAt(b: Backend, st: State, calls: seq<Call>, i: nat, id: string, col: Column): Option<string>
    requires Ok(st) && i < |calls|
  {
    var before := Run(b, st, calls[..i]);
    if id in before.db.sessions then Writes(b, before, calls[i], id, col) else None
  }

  /** What each call of a run writes to a column. */
  ghost function Log(b: Backend, st: State, calls: seq<Call>, id: string, col: Column): (log: seq<Option<string>>)
    requires Ok(st)
    ensures |log| == |calls| && forall i :: 0 <= i < |calls| ==> log[i] == WritesAt(b, st, calls, i, id, col)
  {
    seq(|calls|, i requires 0 <= i < |calls| => WritesAt(b, st, calls, i, id, col))
  }

  lemma LogGrows(b: Backend, st: State, calls: seq<Call>, id: string, col: Column)
    requires Ok(st) && calls != []
    ensures var last := |calls| - 1;
            Log(b, st, calls, id, col) == Log(b, st, calls[..last], id, col) + [WritesAt(b, st, calls, last, id, col)]
  {
    var front := calls[..|calls| - 1];
    forall i | 0 <= i < |front| ensures WritesAt(b, st, front, i, id, col) == WritesAt(b, st, calls, i, id, col) {
      assert front[..i] == calls[..i];
    }
  }

  /** In every run each column of a session holds what the last call that wrote it gave, or what it held at the start if
      none did, and the session's origin stays. */
  lemma {:induction false} ColumnIsLastWritten(b: Backend, st: State, calls: seq<Call>, id: string, col: Column)
    requires Ok(st) && id in st.db.sessions && NeverMadeUp(calls, id)
    ensures var r := Run(b, st, calls).db.sessions;
            && id in r && SameOrigin(st.db.sessions[id], r[id])
            && LastWritten(Log(b, st, calls, id, col), Value(st.db.sessions[id], col), Value(r[id], col))
    decreases |calls|
  {
    if calls != [] {
      var front, last := calls[..|calls| - 1], calls[|calls| - 1];
      var before := Run(b, st, front);
      RunLast(b, st, calls);
      ColumnIsLastWritten(b, st, front, id, col);
      ColumnsAfter(b, before, last, id);
      LogGrows(b, st, calls, id, col);
      OneMoreWrite(Log(b, st, front, id, col), Value(st.db.sessions[id], col), Value(before.db.sessions[id], col),
                   Writes(b, before, last, id, col));
    }
  }
}
