/** Candidate exchange between the provider and the renter of a session, over whole runs. */
module Rendezvous {
  import opened Text
  import opened PrefixLookup
  import opened Records
  import opened Registry

  /** The latest submissions of the two sides of a session. */
  datatype Offers = Offers(provider: Option<CandidateSet>, renter: Option<CandidateSet>)

  /** What the registry keeps for the session when its two peers have made these offers. */
  ghost predicate Holds(st: State, id: string, p: string, r: string, o: Offers) {
    var peers := if id in st.candidates then st.candidates[id] else map[];
    && (forall x :: x in peers ==> x == p || x == r)
    && (p in peers <==> o.provider.Some?) && (o.provider.Some? ==> peers[p] == o.provider.value)
    && (r in peers <==> o.renter.Some?) && (o.renter.Some? ==> peers[r] == o.renter.value)
  }

  ghost predicate NamesSession(b: Backend, st: State, c: Call, id: string) {
    (c.ExchangeCandidates? || c.TerminateSession?) && Resolve(b, st.db.sessions.Keys, c.session) == Found(id)
  }

  /** The two peers only use their own IDs, nobody terminates the session, and its ID is not made up again. */
  ghost predicate TwoPeers(b: Backend, st: State, c: Call, id: string, p: string, r: string) {
    && (c.CreateSession? ==> c.freshID != id)
    && (NamesSession(b, st, c, id) ==> c.ExchangeCandidates? && (c.peerID == p || c.peerID == r))
  }

  ghost predicate TwoPeersRun(b: Backend, st: State, calls: seq<Call>, id: string, p: string, r: string)
    requires Ok(st)
    decreases |calls|
  {
    calls == [] || (TwoPeers(b, st, calls[0], id, p, r) && TwoPeersRun(b, Next(b, st, calls[0]), calls[1..], id, p, r))
  }

  ghost function OffersAfter(b: Backend, st: State, c: Call, id: string, p: string, o: Offers): Offers {
    if !NamesSession(b, st, c, id) || !c.ExchangeCandidates? then o
    else if c.peerID == p then o.(provider := Some(c.offer))
    else o.(renter := Some(c.offer))
  }

  /** Every answer to an exchange on the session carries the other side's latest offer. */
  ghost predicate AnswersOther(b: Backend, st: State, c: Call, id: string, p: string, o: Offers)
    requires Ok(st)
  {
    NamesSession(b, st, c, id) && c.ExchangeCandidates? ==>
      forall reply :: Answers(b, st, c, reply) ==>
                        reply.Exchanged? && reply.peer == if c.peerID == p then o.renter else o.provider
  }

  ghost predicate AlwaysAnswersOther(b: Backend, st: State, calls: seq<Call>, id: string, p: string, o: Offers)
    requires Ok(st)
    decreases |calls|
  {
    calls == [] ||
    (&& AnswersOther(b, st, calls[0], id, p, o)
     && AlwaysAnswersOther(b, Next(b, st, calls[0]), calls[1..], id, p, OffersAfter(b, st, calls[0], id, p, o)))
  }

  lemma HoldsStep(b: Backend, st: State, c: Call, id: string, p: string, r: string, o: Offers)
    requires Ok(st) && p != r && Holds(st, id, p, r, o) && TwoPeers(b, st, c, id, p, r)
    ensures Holds(Next(b, st, c), id, p, r, OffersAfter(b, st, c, id, p, o))
  {
    if c.ExchangeCandidates? {
      ResolveIn(b, st.db.sessions.Keys, c.session);
    } else {
      CandidatesKept(b, st, c, id);
    }
  }

  /** Calls other than an exchange or a termination of the session leave its candidates alone. */
  lemma CandidatesKept(b: Backend, st: State, c: Call, id: string)
    requires Ok(st) && !c.ExchangeCandidates? && !NamesSession(b, st, c, id) && (c.CreateSession? ==> c.freshID != id)
    ensures id in Next(b, st, c).candidates <==> id in st.candidates
    ensures id in st.candidates ==> Next(b, st, c).candidates[id] == st.candidates[id]
  {
    if !OnSessions(c) {
      OthersLeaveSessions(b, st, c);
    }
  }

  lemma AnswersOtherNow(b: Backend, st: State, c: Call, id: string, p: string, r: string, o: Offers)
    requires Ok(st) && p != r && Holds(st, id, p, r, o) && TwoPeers(b, st, c, id, p, r)
    ensures AnswersOther(b, st, c, id, p, o)
  {
    if NamesSession(b, st, c, id) && c.ExchangeCandidates? {
      ResolveIn(b, st.db.sessions.Keys, c.session);
      var peers := Submit(st.candidates, id, c.peerID, c.offer)[id];
      var other := if c.peerID == p then r else p;
      assert other in peers <==> (if c.peerID == p then o.renter else o.provider).Some?;
      assert forall x :: x in peers && x != c.peerID ==> x == other;
    }
  }

  /** Rendezvous: in every run before the session is terminated, each exchange answers with exactly the
      other side's latest offer, never with the caller's own. */
  lemma {:induction false} EachGetsTheOther(b: Backend, st: State, calls: seq<Call>, id: string, p: string,
                                            r: string, o: Offers)
    requires Ok(st) && p != r && Holds(st, id, p, r, o) && TwoPeersRun(b, st, calls, id, p, r)
    ensures AlwaysAnswersOther(b, st, calls, id, p, o)
    decreases |calls|
  {
    if calls != [] {
      AnswersOtherNow(b, st, calls[0], id, p, r, o);
      HoldsStep(b, st, calls[0], id, p, r, o);
      EachGetsTheOther(b, Next(b, st, calls[0]), calls[1..], id, p, r, OffersAfter(b, st, calls[0], id, p, o));
    }
  }

  /** A session created under "wireguard_required" starts with the renter's key on offer. */
  lemma CreationOffersRenterKey(b: Backend, st: State, c: Call)
    requires Ok(st) && c.CreateSession? && c.networkPolicy == "wireguard_required" && c.freshID !in st.candidates
    requires Handle(b, st, c).reply.OneSession?
    ensures var s := Handle(b, st, c).reply.session;
            && s.id == c.freshID && s.renterID == c.renterID && c.wgPublicKey != ""
            && (s.providerID != c.renterID ==>
                  Holds(Next(b, st, c), c.freshID, s.providerID, c.renterID,
                        Offers(None, Some(CandidateSet([], c.wgPublicKey)))))
  {
  }

  predicate KeyOffered(o: Option<CandidateSet>) {
    o.Some? && o.value.wgPublicKey != ""
  }

  /** The provider's exchange is answered with a key. */
  ghost predicate ProviderFindsKey(b: Backend, st: State, c: Call, id: string, p: string)
    requires Ok(st)
  {
    NamesSession(b, st, c, id) && c.ExchangeCandidates? && c.peerID == p ==>
      forall reply :: Answers(b, st, c, reply) ==> reply.Exchanged? && KeyOffered(reply.peer)
  }

  ghost predicate ProviderAlwaysFindsKey(b: Backend, st: State, calls: seq<Call>, id: string, p: string)
    requires Ok(st)
    decreases |calls|
  {
    calls == [] ||
    (&& ProviderFindsKey(b, st, calls[0], id, p)
     && ProviderAlwaysFindsKey(b, Next(b, st, calls[0]), calls[1..], id, p))
  }

  /** As long as the renter never submits an empty key, the agent's exchange finds a non-empty one. */
  lemma {:induction false} AgentFindsPeerKey(b: Backend, st: State, calls: seq<Call>, id: string, p: string,
                                             r: string, o: Offers)
    requires Ok(st) && p != r && Holds(st, id, p, r, o) && TwoPeersRun(b, st, calls, id, p, r)
    requires KeyOffered(o.renter)
    requires forall i :: 0 <= i < |calls| && calls[i].ExchangeCandidates? && calls[i].peerID == r ==>
                           calls[i].offer.wgPublicKey != ""
    ensures ProviderAlwaysFindsKey(b, st, calls, id, p)
    decreases |calls|
  {
    if calls != [] {
      AnswersOtherNow(b, st, calls[0], id, p, r, o);
      HoldsStep(b, st, calls[0], id, p, r, o);
      AgentFindsPeerKey(b, Next(b, st, calls[0]), calls[1..], id, p, r, OffersAfter(b, st, calls[0], id, p, o));
    }
  }

  /** From the creation of a session under "wireguard_required" on: every exchange answers with the other side's
      latest offer, the first for the provider being the renter's key given at creation, and the agent always
      finds a key. */
  lemma RendezvousFromCreation(b: Backend, st: State, c: Call, calls: seq<Call>)
    requires Ok(st) && c.CreateSession? && c.networkPolicy == "wireguard_required" && c.freshID !in st.candidates
    requires Handle(b, st, c).reply.OneSession? && Handle(b, st, c).reply.session.providerID != c.renterID
    requires TwoPeersRun(b, Next(b, st, c), calls, c.freshID, Handle(b, st, c).reply.session.providerID, c.renterID)
    requires forall i :: 0 <= i < |calls| && calls[i].ExchangeCandidates? && calls[i].peerID == c.renterID ==>
                           calls[i].offer.wgPublicKey != ""
    ensures var p, o := Handle(b, st, c).reply.session.providerID, Offers(None, Some(CandidateSet([], c.wgPublicKey)));
            && AlwaysAnswersOther(b, Next(b, st, c), calls, c.freshID, p, o)
            && ProviderAlwaysFindsKey(b, Next(b, st, c), calls, c.freshID, p)
  {
    var p, o := Handle(b, st, c).reply.session.providerID, Offers(None, Some(CandidateSet([], c.wgPublicKey)));
    CreationOffersRenterKey(b, st, c);
    EachGetsTheOther(b, Next(b, st, c), calls, c.freshID, p, c.renterID, o);
    AgentFindsPeerKey(b, Next(b, st, c), calls, c.freshID, p, c.renterID, o);
  }
}
