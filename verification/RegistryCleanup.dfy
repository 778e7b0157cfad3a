/** What stays of a session after its end: its registration at the relay and its candidates. */
module RegistryCleanup {
  import opened PrefixLookup
  import opened Records
  import opened Registry
  import opened RegistryRecords
  import opened RegistrySlots

  // ---- Status and token of a session after a call ----

  /** Whether a session has ended after a call, by what the call says and whether it is stored. */
  ghost predicate EndedAfter(b: Backend, st: State, c: Call, id: string) {
    if c.TerminateSession? && Resolve(b, st.db.sessions.Keys, c.session) == Found(id) then
      Ended(st, id) || !WriteFails(b, id, c.failing)
    else if c.UpdateSessionStatus? && Resolve(b, st.db.sessions.Keys, c.session) == Found(id)
        && StatusStored(b, c, id) then
      c.status == "terminated"
    else Ended(st, id)
  }

  ghost predicate RowIs(st: State, id: string, token: string, ended: bool) {
    id in st.db.sessions && st.db.sessions[id].relayToken == token && (Ended(st, id) <==> ended)
  }

  lemma TerminateRow(b: Backend, st: State, c: Call, id: string)
    requires Ok(st) && id in st.db.sessions && c.TerminateSession?
    ensures RowIs(DoTerminateSession(b, st, c).state, id, st.db.sessions[id].relayToken, EndedAfter(b, st, c, id))
  {
    ResolveIn(b, st.db.sessions.Keys, c.session);
  }

  lemma UpdateRow(b: Backend, st: State, c: Call, id: string)
    requires Ok(st) && id in st.db.sessions && c.UpdateSessionStatus?
    ensures RowIs(DoUpdateSessionStatus(b, st, c).state, id, st.db.sessions[id].relayToken, EndedAfter(b, st, c, id))
  {
    ResolveIn(b, st.db.sessions.Keys, c.session);
  }

  lemma ReportRow(b: Backend, st: State, c: Call, id: string)
    requires Ok(st) && id in st.db.sessions && c.ReportConnectionResult?
    ensures RowIs(DoReportConnectionResult(b, st, c).state, id, st.db.sessions[id].relayToken, Ended(st, id))
  {
    ResolveIn(b, st.db.sessions.Keys, c.session);
  }

  /** Every call keeps the relay token of every session, and ends a session exactly as it says. */
  lemma RowAfterCall(b: Backend, st: State, c: Call, id: string)
    requires Ok(st) && id in st.db.sessions && (c.CreateSession? ==> c.freshID != id)
    ensures RowIs(Next(b, st, c), id, st.db.sessions[id].relayToken, EndedAfter(b, st, c, id))
  {
    if !OnSessions(c) {
      OthersLeaveSessions(b, st, c);
    } else if c.CreateSession? {
      OtherSession(st, Next(b, st, c), id, c.freshID);
    } else if c.TerminateSession? {
      TerminateRow(b, st, c, id);
    } else if c.UpdateSessionStatus? {
      UpdateRow(b, st, c, id);
    } else {
      ReportRow(b, st, c, id);
    }
  }

  /** A session that a call adds is the one it made up: pending, with the token it made up. */
  lemma NewRow(b: Backend, st: State, c: Call, id: string)
    requires Ok(st) && id !in st.db.sessions && id in Next(b, st, c).db.sessions
    ensures c.CreateSession? && c.freshID == id && RowIs(Next(b, st, c), id, c.freshToken, false)
  {
    if !(c.CreateSession? && c.freshID == id) {
      NoRecordAppears(b, st, c, id);
    } else {
      ResolveIn(b, st.db.providers.Keys, c.provider);
    }
  }

  // ---- The relay ----

  /** The call to the relay that a call makes. */
  ghost function CallsRelay(b: Backend, st: State, c: Call): seq<RelayCall> {
    if !c.TerminateSession? && !c.ReportConnectionResult? then []
    else
      var found := Resolve(b, st.db.sessions.Keys, c.session);
      if !found.Found? || found.value !in st.db.sessions then []
      else
        var token := st.db.sessions[found.value].relayToken;
        if c.TerminateSession? then
          if token != "" && !WriteFails(b, found.value, c.failing) then [InvalidateRelay(token)] else []
        else if c.useRelay then [RegisterRelay(token, found.value)]
        else []
  }

  lemma TerminateCallsRelay(b: Backend, st: State, c: Call)
    requires Ok(st) && c.TerminateSession?
    ensures DoTerminateSession(b, st, c).state.relayCalls == st.relayCalls + CallsRelay(b, st, c)
  {
    ResolveIn(b, st.db.sessions.Keys, c.session);
  }

  lemma ReportCallsRelay(b: Backend, st: State, c: Call)
    requires Ok(st) && c.ReportConnectionResult?
    ensures DoReportConnectionResult(b, st, c).state.relayCalls == st.relayCalls + CallsRelay(b, st, c)
  {
    ResolveIn(b, st.db.sessions.Keys, c.session);
  }

  lemma UpdateCallsNoRelay(b: Backend, st: State, c: Call)
    requires Ok(st) && c.UpdateSessionStatus?
    ensures DoUpdateSessionStatus(b, st, c).state.relayCalls == st.relayCalls
  {
  }

  /** The calls a registry makes to the relay, exactly. */
  lemma RelayCallsAfter(b: Backend, st: State, c: Call)
    requires Ok(st)
    ensures Next(b, st, c).relayCalls == st.relayCalls + CallsRelay(b, st, c)
  {
    if c.TerminateSession? {
      TerminateCallsRelay(b, st, c);
    } else if c.ReportConnectionResult? {
      ReportCallsRelay(b, st, c);
    } else {
      assert st.relayCalls + [] == st.relayCalls;
      if c.UpdateSessionStatus? {
        UpdateCallsNoRelay(b, st, c);
      }
    }
  }

  /** The last call to the relay about a token was a registration. */
  predicate Registered(calls: seq<RelayCall>, token: string) {
    calls != [] &&
    var last := calls[|calls| - 1];
    if last.token == token then last.RegisterRelay? else Registered(calls[..|calls| - 1], token)
  }

  lemma RegisteredAfter(calls: seq<RelayCall>, more: seq<RelayCall>, token: string)
    requires |more| <= 1
    ensures Registered(calls + more, token) <==>
            if more != [] && more[0].token == token then more[0].RegisterRelay? else Registered(calls, token)
  {
    if more == [] {
      assert calls + more == calls;
    } else {
      assert (calls + more)[..|calls|] == calls;
    }
  }

  /** Sessions have their own tokens. */
  ghost predicate OwnTokens(st: State) {
    && (forall x :: x in st.db.sessions ==> st.db.sessions[x].relayToken != "")
    && (forall x, y :: x in st.db.sessions && y in st.db.sessions && x != y ==>
                         st.db.sessions[x].relayToken != st.db.sessions[y].relayToken)
  }

  /** What a creation makes up has never been used. */
  ghost predicate MadeUpAnew(st: State, c: Call) {
    c.CreateSession? ==>
      && c.freshID !in st.db.sessions && c.freshToken != ""
      && forall x :: x in st.db.sessions ==> st.db.sessions[x].relayToken != c.freshToken
  }

  lemma OwnTokensStep(b: Backend, st: State, c: Call)
    requires Ok(st) && OwnTokens(st) && MadeUpAnew(st, c)
    ensures OwnTokens(Next(b, st, c))
  {
    var r := Next(b, st, c);
    forall x | x in r.db.sessions
      ensures if x in st.db.sessions then r.db.sessions[x].relayToken == st.db.sessions[x].relayToken
              else c.CreateSession? && x == c.freshID && r.db.sessions[x].relayToken == c.freshToken
    {
      if x in st.db.sessions {
        RowAfterCall(b, st, c, x);
      } else {
        NewRow(b, st, c, x);
      }
    }
  }

  ghost predicate RelayEnded(st: State, id: string)
    requires id in st.db.sessions
  {
    Ended(st, id) ==> !Registered(st.relayCalls, st.db.sessions[id].relayToken)
  }

  /** No session that has ended is still registered at the relay. */
  ghost predicate RelaysEnded(st: State) {
    forall id :: id in st.db.sessions ==> RelayEnded(st, id)
  }

  /** A report of relay use for a session that has ended, or a "terminated" update of a session registered at the
      relay. */
  ghost predicate LeavesRelay(b: Backend, st: State, c: Call) {
    && (c.ReportConnectionResult? || c.UpdateSessionStatus?)
    && var found := Resolve(b, st.db.sessions.Keys, c.session);
    && found.Found? && found.value in st.db.sessions
    && if c.ReportConnectionResult? then c.useRelay && Ended(st, found.value)
       else
         && c.status == "terminated" && !Ended(st, found.value) && StatusStored(b, c, found.value)
         && Registered(st.relayCalls, st.db.sessions[found.value].relayToken)
  }

  ghost predicate Names(b: Backend, st: State, c: Call, id: string) {
    (c.TerminateSession? || c.ReportConnectionResult? || c.UpdateSessionStatus?)
    && Resolve(b, st.db.sessions.Keys, c.session) == Found(id)
  }

  /** The registration of a session at the relay changes only by a call that names it. */
  lemma RegisteredNow(b: Backend, st: State, c: Call, id: string)
    requires Ok(st) && OwnTokens(st) && id in st.db.sessions
    ensures Registered(Next(b, st, c).relayCalls, st.db.sessions[id].relayToken) <==>
            if Names(b, st, c, id) && c.ReportConnectionResult? && c.useRelay then true
            else if Names(b, st, c, id) && c.TerminateSession? && !WriteFails(b, id, c.failing) then false
            else Registered(st.relayCalls, st.db.sessions[id].relayToken)
  {
    RelayCallsAfter(b, st, c);
    RegisteredAfter(st.relayCalls, CallsRelay(b, st, c), st.db.sessions[id].relayToken);
  }

  lemma RelayEndedAfter(b: Backend, st: State, c: Call, id: string)
    requires Ok(st) && OwnTokens(st) && MadeUpAnew(st, c) && id in st.db.sessions && RelayEnded(st, id)
    ensures id in Next(b, st, c).db.sessions
    ensures RelayEnded(Next(b, st, c), id) <==> !(LeavesRelay(b, st, c) && Names(b, st, c, id))
  {
    RowAfterCall(b, st, c, id);
    RegisteredNow(b, st, c, id);
  }

  /** A call leaves no ended session registered at the relay exactly when it is none of these two. */
  lemma RelaysEndedStepIff(b: Backend, st: State, c: Call)
    requires Ok(st) && OwnTokens(st) && MadeUpAnew(st, c) && RelaysEnded(st)
    ensures RelaysEnded(Next(b, st, c)) <==> !LeavesRelay(b, st, c)
  {
    var r := Next(b, st, c);
    forall id | id in r.db.sessions
      ensures RelayEnded(r, id) <==> !(LeavesRelay(b, st, c) && Names(b, st, c, id))
    {
      if id in st.db.sessions {
        RelayEndedAfter(b, st, c, id);
      } else {
        NewRow(b, st, c, id);
      }
    }
    if LeavesRelay(b, st, c) {
      RelayEndedAfter(b, st, c, Resolve(b, st.db.sessions.Keys, c.session).value);
    }
  }

  ghost predicate MadeUpAnewThroughout(b: Backend, st: State, calls: seq<Call>)
    requires Ok(st)
    decreases |calls|
  {
    calls == [] || (MadeUpAnew(st, calls[0]) && MadeUpAnewThroughout(b, Next(b, st, calls[0]), calls[1..]))
  }

  ghost predicate RelaysEndedThroughout(b: Backend, st: State, calls: seq<Call>)
    requires Ok(st)
    decreases |calls|
  {
    RelaysEnded(st) && (calls == [] || RelaysEndedThroughout(b, Next(b, st, calls[0]), calls[1..]))
  }

  ghost predicate NeverLeavesRelay(b: Backend, st: State, calls: seq<Call>)
    requires Ok(st)
    decreases |calls|
  {
    calls == [] || (!LeavesRelay(b, st, calls[0]) && NeverLeavesRelay(b, Next(b, st, calls[0]), calls[1..]))
  }

  /** In every state of a run no session that has ended is still registered at the relay, exactly when no call of the
      run is a report of relay use for an ended session or a "terminated" update of a registered one. */
  lemma {:induction false} RelaysEndedIff(b: Backend, st: State, calls: seq<Call>)
    requires Ok(st) && OwnTokens(st) && RelaysEnded(st) && MadeUpAnewThroughout(b, st, calls)
    ensures RelaysEndedThroughout(b, st, calls) <==> NeverLeavesRelay(b, st, calls)
    decreases |calls|
  {
    if calls != [] {
      var next := Next(b, st, calls[0]);
      RelaysEndedStepIff(b, st, calls[0]);
      OwnTokensStep(b, st, calls[0]);
      if RelaysEnded(next) {
        RelaysEndedIff(b, next, calls[1..]);
      } else {
        assert !RelaysEndedThroughout(b, next, calls[1..]);
      }
    }
  }

  // ---- Candidates ----

  /** No session that has ended has candidates. */
  ghost predicate CandidatesEnded(st: State) {
    forall id :: id in st.candidates ==> !Ended(st, id)
  }

  /** An exchange on a session that has ended, or a "terminated" update of a session with candidates. */
  ghost predicate LeavesCandidates(b: Backend, st: State, c: Call) {
    && (c.ExchangeCandidates? || c.UpdateSessionStatus?)
    && var found := Resolve(b, st.db.sessions.Keys, c.session);
    && found.Found? && found.value in st.db.sessions
    && if c.ExchangeCandidates? then Ended(st, found.value)
       else
         && c.status == "terminated" && !Ended(st, found.value) && StatusStored(b, c, found.value)
         && found.value in st.candidates
  }

  /** Whether a session has candidates after a call. */
  lemma CandidatesAfter(b: Backend, st: State, c: Call, id: string)
    requires Ok(st) && id in st.db.sessions && (c.CreateSession? ==> c.freshID != id)
    ensures id in Next(b, st, c).candidates <==>
            if c.ExchangeCandidates? && Resolve(b, st.db.sessions.Keys, c.session) == Found(id) then true
            else if c.TerminateSession? && Resolve(b, st.db.sessions.Keys, c.session) == Found(id)
                && !WriteFails(b, id, c.failing)
            then false else id in st.candidates
  {
    if c.TerminateSession? {
      ResolveIn(b, st.db.sessions.Keys, c.session);
    } else if !OnSessions(c) && !c.ExchangeCandidates? {
      OthersLeaveSessions(b, st, c);
    }
  }

  /** A call leaves no ended session with candidates exactly when it is none of these two. */
  lemma CandidatesEndedStepIff(b: Backend, st: State, c: Call)
    requires Ok(st) && CandidatesEnded(st) && (c.CreateSession? ==> c.freshID !in st.db.sessions)
    ensures CandidatesEnded(Next(b, st, c)) <==> !LeavesCandidates(b, st, c)
  {
    var r := Next(b, st, c);
    forall id | id in r.db.sessions
      ensures (id in r.candidates && Ended(r, id)) <==>
              (LeavesCandidates(b, st, c) && Resolve(b, st.db.sessions.Keys, c.session) == Found(id))
    {
      if id in st.db.sessions {
        RowAfterCall(b, st, c, id);
        CandidatesAfter(b, st, c, id);
      } else {
        NewRow(b, st, c, id);
      }
    }
    if LeavesCandidates(b, st, c) {
      RowAfterCall(b, st, c, Resolve(b, st.db.sessions.Keys, c.session).value);
    }
  }

  ghost predicate NewIDs(b: Backend, st: State, calls: seq<Call>)
    requires Ok(st)
    decreases |calls|
  {
    calls == [] ||
    (&& (calls[0].CreateSession? ==> calls[0].freshID !in st.db.sessions)
     && NewIDs(b, Next(b, st, calls[0]), calls[1..]))
  }

  ghost predicate CandidatesEndedThroughout(b: Backend, st: State, calls: seq<Call>)
    requires Ok(st)
    decreases |calls|
  {
    CandidatesEnded(st) && (calls == [] || CandidatesEndedThroughout(b, Next(b, st, calls[0]), calls[1..]))
  }

  ghost predicate NeverLeavesCandidates(b: Backend, st: State, calls: seq<Call>)
    requires Ok(st)
    decreases |calls|
  {
    calls == [] || (!LeavesCandidates(b, st, calls[0]) && NeverLeavesCandidates(b, Next(b, st, calls[0]), calls[1..]))
  }

  /** In every state of a run no session that has ended has candidates, exactly when no call of the run is an exchange
      on an ended session or a "terminated" update of a session with candidates. */
  lemma {:induction false} CandidatesEndedIff(b: Backend, st: State, calls: seq<Call>)
    requires Ok(st) && CandidatesEnded(st) && NewIDs(b, st, calls)
    ensures CandidatesEndedThroughout(b, st, calls) <==> NeverLeavesCandidates(b, st, calls)
    decreases |calls|
  {
    if calls != [] {
      var next := Next(b, st, calls[0]);
      CandidatesEndedStepIff(b, st, calls[0]);
      if CandidatesEnded(next) {
        CandidatesEndedIff(b, next, calls[1..]);
      } else {
        assert !CandidatesEndedThroughout(b, next, calls[1..]);
      }
    }
  }

  // ---- The agent's own way of ending a session ----

  /** The update an agent sends when it stops a session ends it on either store, and leaves it registered at the relay
      and its candidates in place if it was registered and had any. */
  lemma AgentStopLeavesBoth(b: Backend, st: State, id: string, now: int)
    requires Ok(st) && id in st.db.sessions && !Ended(st, id)
    ensures var c := UpdateSessionStatus(id, "terminated", "", "", "", "", now, {});
            var r := Next(b, st, c);
            && Answers(b, st, c, Done) && RowIs(r, id, st.db.sessions[id].relayToken, true)
            && (Registered(r.relayCalls, r.db.sessions[id].relayToken) <==>
                Registered(st.relayCalls, st.db.sessions[id].relayToken))
            && (id in r.candidates <==> id in st.candidates)
  {
    var c := UpdateSessionStatus(id, "terminated", "", "", "", "", now, {});
    assert Resolve(b, st.db.sessions.Keys, id) == Found(id);
    RowAfterCall(b, st, c, id);
    RelayCallsAfter(b, st, c);
    assert st.relayCalls + [] == st.relayCalls;
    CandidatesAfter(b, st, c, id);
  }

  /** A report of relay use for a session that has ended is accepted and registers it at the relay again. */
  lemma LateReportRegisters(b: Backend, st: State, id: string)
    requires Ok(st) && Ended(st, id)
    ensures var c := ReportConnectionResult(id, true, {});
            var r := Next(b, st, c);
            && Answers(b, st, c, Done) && Ended(r, id)
            && Registered(r.relayCalls, st.db.sessions[id].relayToken)
  {
    var c := ReportConnectionResult(id, true, {});
    assert Resolve(b, st.db.sessions.Keys, id) == Found(id);
    RowAfterCall(b, st, c, id);
    RelayCallsAfter(b, st, c);
    RegisteredAfter(st.relayCalls, CallsRelay(b, st, c), st.db.sessions[id].relayToken);
  }
}
