/** Session records of the registry over whole runs. */
module RegistryRecords {
  import opened PrefixLookup
  import opened Records
  import opened Registry
  import opened RegistrySlots
  import opened Text

  /** A running session has an endpoint and a connection mode, a terminated one the time of its end. */
  predicate RecordOk(s: Session) {
    && (s.status == "running" ==> s.wgEndpoint != "" && s.connectionMode != "")
    && (s.status == "terminated" ==> s.terminatedAt > 0)
  }

  ghost predicate RecordsOk(st: State) {
    forall id :: id in st.db.sessions ==> RecordOk(st.db.sessions[id])
  }

  /** The clock is after 1970 wherever a call reads it for a session's end. */
  predicate ClockOk(c: Call) {
    (c.TerminateSession? || c.UpdateSessionStatus?) ==> c.now > 0
  }

  /** A refused "running" update reaches a shared record that lacks its endpoint or connection mode. */
  ghost predicate SpoilsRecord(b: Backend, st: State, c: Call) {
    b.Memory? && c.UpdateSessionStatus? && Refused(c) &&
    var found := Resolve(b, st.db.sessions.Keys, c.session);
    found.Found? && found.value in st.db.sessions &&
    (st.db.sessions[found.value].wgEndpoint == "" || st.db.sessions[found.value].connectionMode == "")
  }

  lemma OneRow(st: State, ss: map<string, Session>, id: string, s: Session)
    requires RecordsOk(st) && ss == st.db.sessions[id := s]
    ensures (forall x :: x in ss ==> RecordOk(ss[x])) <==> RecordOk(s)
  {
    assert id in ss && ss[id] == s;
  }

  lemma CreateKeepsRecords(b: Backend, st: State, c: Call)
    requires Ok(st) && RecordsOk(st) && c.CreateSession?
    ensures c.freshID !in st.db.sessions ==> RecordsOk(DoCreateSession(b, st, c).state)
  {
  }

  lemma TerminateKeepsRecords(b: Backend, st: State, c: Call)
    requires Ok(st) && RecordsOk(st) && c.TerminateSession? && ClockOk(c)
    ensures RecordsOk(DoTerminateSession(b, st, c).state)
  {
    ResolveIn(b, st.db.sessions.Keys, c.session);
    var found := Resolve(b, st.db.sessions.Keys, c.session);
    if found.Found? {
      var r := DoTerminateSession(b, st, c).state.db.sessions;
      OneRow(st, r, found.value, r[found.value]);
    }
  }

  lemma ReportKeepsRecords(b: Backend, st: State, c: Call)
    requires Ok(st) && RecordsOk(st) && c.ReportConnectionResult?
    ensures RecordsOk(DoReportConnectionResult(b, st, c).state)
  {
    ResolveIn(b, st.db.sessions.Keys, c.session);
    var found := Resolve(b, st.db.sessions.Keys, c.session);
    if found.Found? {
      var r := DoReportConnectionResult(b, st, c).state.db.sessions;
      OneRow(st, r, found.value, r[found.value]);
    }
  }

  lemma UpdateKeepsRecordsIff(b: Backend, st: State, c: Call)
    requires Ok(st) && RecordsOk(st) && c.UpdateSessionStatus? && ClockOk(c)
    ensures RecordsOk(DoUpdateSessionStatus(b, st, c).state) <==> !SpoilsRecord(b, st, c)
  {
    ResolveIn(b, st.db.sessions.Keys, c.session);
    var found := Resolve(b, st.db.sessions.Keys, c.session);
    if found.Found? {
      var id := found.value;
      var r := DoUpdateSessionStatus(b, st, c).state.db.sessions;
      if !(b.Postgres? && Refused(c)) {
        OneRow(st, r, id, r[id]);
      }
    }
  }

  /** A call keeps every record in order exactly when it does not spoil a shared one; over the copying
      store none can. */
  lemma RecordsStepIff(b: Backend, st: State, c: Call)
    requires Ok(st) && RecordsOk(st) && ClockOk(c) && (c.CreateSession? ==> c.freshID !in st.db.sessions)
    ensures RecordsOk(Next(b, st, c)) <==> !SpoilsRecord(b, st, c)
    ensures b.Postgres? ==> RecordsOk(Next(b, st, c))
  {
    if !OnSessions(c) {
      OthersLeaveSessions(b, st, c);
    } else if c.CreateSession? {
      CreateKeepsRecords(b, st, c);
    } else if c.TerminateSession? {
      TerminateKeepsRecords(b, st, c);
    } else if c.UpdateSessionStatus? {
      UpdateKeepsRecordsIff(b, st, c);
    } else {
      ReportKeepsRecords(b, st, c);
    }
  }

  ghost predicate GoodInputs(b: Backend, st: State, calls: seq<Call>)
    requires Ok(st)
    decreases |calls|
  {
    calls == [] ||
    (&& ClockOk(calls[0]) && (calls[0].CreateSession? ==> calls[0].freshID !in st.db.sessions)
     && GoodInputs(b, Next(b, st, calls[0]), calls[1..]))
  }

  /** The record invariant over the copying store, for every run, failing writes included. */
  lemma {:induction false} RecordsStayOk(st: State, calls: seq<Call>)
    requires Ok(st) && RecordsOk(st) && GoodInputs(Postgres, st, calls)
    ensures RecordsOk(Run(Postgres, st, calls))
    decreases |calls|
  {
    if calls != [] {
      RecordsStepIff(Postgres, st, calls[0]);
      RecordsStayOk(Next(Postgres, st, calls[0]), calls[1..]);
    }
  }

  // ---- Which calls record a session's end ----

  ghost function Count(s: seq<string>, id: string): nat {
    multiset(s)[id]
  }

  /** A termination that is written, of whatever status before, or an update that ends a session not ended yet. */
  ghost predicate RecordsEnd(b: Backend, st: State, c: Call, id: string) {
    && (c.TerminateSession? || c.UpdateSessionStatus?)
    && Resolve(b, st.db.sessions.Keys, c.session) == Found(id)
    && if c.TerminateSession? then !WriteFails(b, id, c.failing)
       else c.status == "terminated" && id in st.db.sessions && st.db.sessions[id].status != "terminated"
  }

  lemma TerminateRecords(b: Backend, st: State, c: Call, id: string)
    requires Ok(st) && c.TerminateSession?
    ensures Count(DoTerminateSession(b, st, c).state.outcomes, id) ==
            Count(st.outcomes, id) + if RecordsEnd(b, st, c, id) then 1 else 0
  {
    ResolveIn(b, st.db.sessions.Keys, c.session);
  }

  lemma UpdateRecords(b: Backend, st: State, c: Call, id: string)
    requires Ok(st) && c.UpdateSessionStatus?
    ensures Count(DoUpdateSessionStatus(b, st, c).state.outcomes, id) ==
            Count(st.outcomes, id) + if RecordsEnd(b, st, c, id) then 1 else 0
  {
    ResolveIn(b, st.db.sessions.Keys, c.session);
  }

  /** A call adds one outcome for a session exactly when it is such a call on it, and never more than one. */
  lemma OutcomeStepIff(b: Backend, st: State, c: Call, id: string)
    requires Ok(st)
    ensures Count(Next(b, st, c).outcomes, id) == Count(st.outcomes, id) + if RecordsEnd(b, st, c, id) then 1 else 0
  {
    if !OnSessions(c) {
      OthersLeaveSessions(b, st, c);
    } else if c.TerminateSession? {
      TerminateRecords(b, st, c, id);
    } else if c.UpdateSessionStatus? {
      UpdateRecords(b, st, c, id);
    }
  }

  // ---- Which calls set the time of its end ----

  /** The call makes up an ID that is not new and writes a record without an end over the old one. */
  ghost predicate Overwrites(b: Backend, st: State, c: Call, id: string) {
    c.CreateSession? && c.freshID == id && ReachesWrite(b, st, c) && !WriteFails(b, id, c.failing)
  }

  /** The time of the session's end that the call writes, if it writes one. */
  ghost function EndSetBy(b: Backend, st: State, c: Call, id: string): Option<int> {
    if Overwrites(b, st, c, id) then Some(0)
    else if RecordsEnd(b, st, c, id) && !WriteFails(b, id, c.failing) then Some(c.now)
    else None
  }

  ghost function EndAfter(b: Backend, st: State, c: Call, id: string, before: int): int {
    var end := EndSetBy(b, st, c, id);
    if end.Some? then end.value else before
  }

  ghost predicate EndIs(st: State, id: string, end: int) {
    id in st.db.sessions && st.db.sessions[id].terminatedAt == end
  }

  lemma CreateSetsEnd(b: Backend, st: State, c: Call, id: string)
    requires Ok(st) && id in st.db.sessions && c.CreateSession?
    ensures EndIs(DoCreateSession(b, st, c).state, id, EndAfter(b, st, c, id, st.db.sessions[id].terminatedAt))
  {
    ResolveIn(b, st.db.providers.Keys, c.provider);
  }

  lemma TerminateSetsEnd(b: Backend, st: State, c: Call, id: string)
    requires Ok(st) && id in st.db.sessions && c.TerminateSession?
    ensures EndIs(DoTerminateSession(b, st, c).state, id, EndAfter(b, st, c, id, st.db.sessions[id].terminatedAt))
  {
    ResolveIn(b, st.db.sessions.Keys, c.session);
  }

  lemma UpdateSetsEnd(b: Backend, st: State, c: Call, id: string)
    requires Ok(st) && id in st.db.sessions && c.UpdateSessionStatus?
    ensures EndIs(DoUpdateSessionStatus(b, st, c).state, id, EndAfter(b, st, c, id, st.db.sessions[id].terminatedAt))
  {
    ResolveIn(b, st.db.sessions.Keys, c.session);
  }

  lemma ReportSetsNoEnd(b: Backend, st: State, c: Call, id: string)
    requires Ok(st) && id in st.db.sessions && c.ReportConnectionResult?
    ensures EndIs(DoReportConnectionResult(b, st, c).state, id, st.db.sessions[id].terminatedAt)
  {
    ResolveIn(b, st.db.sessions.Keys, c.session);
  }

  /** A call moves the time of a session's end exactly when it records the end and is written, or writes a new
      record over the session. */
  lemma EndStepIff(b: Backend, st: State, c: Call, id: string)
    requires Ok(st) && id in st.db.sessions
    ensures EndIs(Next(b, st, c), id, EndAfter(b, st, c, id, st.db.sessions[id].terminatedAt))
  {
    if !OnSessions(c) {
      OthersLeaveSessions(b, st, c);
    } else if c.CreateSession? {
      CreateSetsEnd(b, st, c, id);
    } else if c.TerminateSession? {
      TerminateSetsEnd(b, st, c, id);
    } else if c.UpdateSessionStatus? {
      UpdateSetsEnd(b, st, c, id);
    } else {
      ReportSetsNoEnd(b, st, c, id);
    }
  }

  // ---- Over runs ----

  /** How many calls of the run record the session's end. */
  ghost function EndsRecorded(b: Backend, st: State, calls: seq<Call>, id: string): nat
    requires Ok(st)
    decreases |calls|
  {
    if calls == [] then 0
    else (if RecordsEnd(b, st, calls[0], id) then 1 else 0) + EndsRecorded(b, Next(b, st, calls[0]), calls[1..], id)
  }

  /** The last time of the session's end that a call of the run writes, or `end` if none does. */
  ghost function LastEnd(b: Backend, st: State, calls: seq<Call>, id: string, end: int): int
    requires Ok(st)
    decreases |calls|
  {
    if calls == [] then end
    else LastEnd(b, Next(b, st, calls[0]), calls[1..], id, EndAfter(b, st, calls[0], id, end))
  }

  /** Over every run of either registry: one outcome for each call that records the session's end, and the time of
      the end is the last one written. */
  lemma {:induction false} EndsOfRun(b: Backend, st: State, calls: seq<Call>, id: string)
    requires Ok(st)
    ensures Count(Run(b, st, calls).outcomes, id) == Count(st.outcomes, id) + EndsRecorded(b, st, calls, id)
    ensures id in st.db.sessions ==>
              EndIs(Run(b, st, calls), id, LastEnd(b, st, calls, id, st.db.sessions[id].terminatedAt))
    decreases |calls|
  {
    if calls != [] {
      OutcomeStepIff(b, st, calls[0], id);
      if id in st.db.sessions {
        EndStepIff(b, st, calls[0], id);
      }
      EndsOfRun(b, Next(b, st, calls[0]), calls[1..], id);
    }
  }

  ghost predicate Ended(st: State, id: string) {
    id in st.db.sessions && st.db.sessions[id].status == "terminated"
  }

  /** No call of the run records the session's end. */
  ghost predicate NoEndRecorded(b: Backend, st: State, calls: seq<Call>, id: string)
    requires Ok(st)
    decreases |calls|
  {
    calls == [] || (!RecordsEnd(b, st, calls[0], id) && NoEndRecorded(b, Next(b, st, calls[0]), calls[1..], id))
  }

  /** The run records no outcome for the session exactly when none of its calls records its end; then, with new
      IDs, the time of the end stays as well. */
  lemma EndRecordedOnceIff(b: Backend, st: State, calls: seq<Call>, id: string)
    requires Ok(st)
    ensures Count(Run(b, st, calls).outcomes, id) == Count(st.outcomes, id) <==> NoEndRecorded(b, st, calls, id)
    ensures NoEndRecorded(b, st, calls, id) && NeverMadeUp(calls, id) && id in st.db.sessions ==>
              EndIs(Run(b, st, calls), id, st.db.sessions[id].terminatedAt)
  {
    EndsOfRun(b, st, calls, id);
    NoneRecorded(b, st, calls, id);
    if NoEndRecorded(b, st, calls, id) && NeverMadeUp(calls, id) && id in st.db.sessions {
      NoneWritten(b, st, calls, id, st.db.sessions[id].terminatedAt);
    }
  }

  ghost predicate NeverMadeUp(calls: seq<Call>, id: string) {
    forall i :: 0 <= i < |calls| && calls[i].CreateSession? ==> calls[i].freshID != id
  }

  lemma {:induction false} NoneRecorded(b: Backend, st: State, calls: seq<Call>, id: string)
    requires Ok(st)
    ensures EndsRecorded(b, st, calls, id) == 0 <==> NoEndRecorded(b, st, calls, id)
    decreases |calls|
  {
    if calls != [] {
      NoneRecorded(b, Next(b, st, calls[0]), calls[1..], id);
    }
  }

  lemma {:induction false} NoneWritten(b: Backend, st: State, calls: seq<Call>, id: string, end: int)
    requires Ok(st) && NoEndRecorded(b, st, calls, id) && NeverMadeUp(calls, id)
    ensures LastEnd(b, st, calls, id, end) == end
    decreases |calls|
  {
    if calls != [] {
      NoneWritten(b, Next(b, st, calls[0]), calls[1..], id, end);
    }
  }

  /** The time of the session's end is `end` in every state of the run. */
  ghost predicate EndStays(b: Backend, st: State, calls: seq<Call>, id: string, end: int)
    requires Ok(st)
    decreases |calls|
  {
    EndIs(st, id, end) && (calls == [] || EndStays(b, Next(b, st, calls[0]), calls[1..], id, end))
  }

  /** No call of the run writes another time of the session's end. */
  ghost predicate NoOtherEnd(b: Backend, st: State, calls: seq<Call>, id: string, end: int)
    requires Ok(st)
    decreases |calls|
  {
    calls == [] ||
    (&& EndAfter(b, st, calls[0], id, end) == end
     && NoOtherEnd(b, Next(b, st, calls[0]), calls[1..], id, end))
  }

  /** The time of a session's end stays in every state of a run exactly when no call of it writes another. */
  lemma {:induction false} EndStaysIff(b: Backend, st: State, calls: seq<Call>, id: string, end: int)
    requires Ok(st) && EndIs(st, id, end)
    ensures EndStays(b, st, calls, id, end) <==> NoOtherEnd(b, st, calls, id, end)
    decreases |calls|
  {
    if calls != [] {
      EndStepIff(b, st, calls[0], id);
      var next := Next(b, st, calls[0]);
      if EndIs(next, id, end) {
        EndStaysIff(b, next, calls[1..], id, end);
      } else {
        assert !EndStays(b, next, calls[1..], id, end);
      }
    }
  }

  // ---- Repeated ends ----

  /** The call leaves the session's record ended and does not terminate it through `TerminateSession`. */
  ghost predicate AtMostRepeatsEnd(b: Backend, st: State, c: Call, id: string) {
    && (c.TerminateSession? ==> Resolve(b, st.db.sessions.Keys, c.session) != Found(id))
    && (c.UpdateSessionStatus? && c.status != "terminated" ==> Resolve(b, st.db.sessions.Keys, c.session) != Found(id))
    && (c.CreateSession? ==> c.freshID != id)
  }

  lemma OtherSession(st: State, r: State, id: string, other: string)
    requires OnlySession(st, r, other) && other != id && id in st.db.sessions
    ensures id in r.db.sessions && r.db.sessions[id] == st.db.sessions[id]
  {
  }

  lemma StaysEnded(b: Backend, st: State, c: Call, id: string)
    requires Ok(st) && Ended(st, id) && AtMostRepeatsEnd(b, st, c, id)
    ensures Ended(Next(b, st, c), id)
  {
    if !OnSessions(c) {
      OthersLeaveSessions(b, st, c);
    } else if c.CreateSession? {
      OtherSession(st, Next(b, st, c), id, c.freshID);
    } else {
      var found := Resolve(b, st.db.sessions.Keys, c.session);
      if found.Found? && found.value != id {
        OtherSession(st, Next(b, st, c), id, found.value);
      }
    }
  }

  ghost predicate OnlyRepeatsEnd(b: Backend, st: State, calls: seq<Call>, id: string)
    requires Ok(st)
    decreases |calls|
  {
    calls == [] || (AtMostRepeatsEnd(b, st, calls[0], id) && OnlyRepeatsEnd(b, Next(b, st, calls[0]), calls[1..], id))
  }

  lemma {:induction false} RepeatedUpdatesRecordNothing(b: Backend, st: State, calls: seq<Call>, id: string)
    requires Ok(st) && Ended(st, id) && OnlyRepeatsEnd(b, st, calls, id)
    ensures NoEndRecorded(b, st, calls, id) && NeverMadeUp(calls, id) && Ended(Run(b, st, calls), id)
    decreases |calls|
  {
    if calls != [] {
      StaysEnded(b, st, calls[0], id);
      RepeatedUpdatesRecordNothing(b, Next(b, st, calls[0]), calls[1..], id);
    }
  }

  /** The agent's retries: once a session has ended, any number of "terminated" updates, among other calls that
      neither terminate nor revive it, record no outcome and leave the time of its end. */
  lemma EndRecordedOnce(b: Backend, st: State, calls: seq<Call>, id: string)
    requires Ok(st) && Ended(st, id) && OnlyRepeatsEnd(b, st, calls, id)
    ensures var r := Run(b, st, calls);
            && Ended(r, id) && r.db.sessions[id].terminatedAt == st.db.sessions[id].terminatedAt
            && Count(r.outcomes, id) == Count(st.outcomes, id)
  {
    RepeatedUpdatesRecordNothing(b, st, calls, id);
    EndRecordedOnceIff(b, st, calls, id);
  }

  /** A `TerminateSession` of an ended session is accepted: it records another outcome and moves the end. */
  lemma TerminateAgainRecordsAgain(b: Backend, st: State, id: string, now: int)
    requires Ok(st) && Ended(st, id)
    ensures var c := TerminateSession(id, now, {});
            && Answers(b, st, c, Done)
            && Count(Next(b, st, c).outcomes, id) == Count(st.outcomes, id) + 1
            && EndIs(Next(b, st, c), id, now)
  {
    var c := TerminateSession(id, now, {});
    assert Resolve(b, st.db.sessions.Keys, id) == Found(id);
    OutcomeStepIff(b, st, c, id);
    EndStepIff(b, st, c, id);
  }

  /** The first update must have been written: if its row was not, the agent's retry of it records a
      second outcome for the same end. */
  lemma RetryAfterFailedWriteRecordsTwice(st: State, id: string, now: int, later: int)
    requires Ok(st) && id in st.db.sessions && st.db.sessions[id].status != "terminated"
    ensures var first := UpdateSessionStatus(id, "terminated", "", "", "", "", now, {id});
            var retry := UpdateSessionStatus(id, "terminated", "", "", "", "", later, {});
            var r := Run(Postgres, st, [first, retry]);
            && Answers(Postgres, st, first, Failed(Internal))
            && Count(r.outcomes, id) == Count(st.outcomes, id) + 2
            && id in r.db.sessions && r.db.sessions[id].terminatedAt == later
  {
    var first := UpdateSessionStatus(id, "terminated", "", "", "", "", now, {id});
    var retry := UpdateSessionStatus(id, "terminated", "", "", "", "", later, {});
    var s1 := FailedFirst(st, id, first);
    EndsOfRun(Postgres, s1, [retry], id);
    assert [retry][1..] == [] && Resolve(Postgres, s1.db.sessions.Keys, id) == Found(id);
    assert [first, retry][1..] == [retry];
    assert Run(Postgres, st, [first, retry]) == Run(Postgres, s1, [retry]);
  }

  lemma FailedFirst(st: State, id: string, first: Call) returns (s1: State)
    requires Ok(st) && id in st.db.sessions && st.db.sessions[id].status != "terminated"
    requires first.UpdateSessionStatus? && first.session == id && first.status == "terminated" && id in first.failing
    ensures s1 == Next(Postgres, st, first) && Answers(Postgres, st, first, Failed(Internal))
    ensures s1.db.sessions == st.db.sessions && Count(s1.outcomes, id) == Count(st.outcomes, id) + 1
  {
    assert Resolve(Postgres, st.db.sessions.Keys, id) == Found(id);
    s1 := Next(Postgres, st, first);
  }
}
