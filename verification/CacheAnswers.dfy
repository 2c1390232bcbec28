/** How a request is answered: from the store, by a leader, or by the network; and why no answer from the store is
    stale. */
module CacheAnswers {
  import opened Collections
  import opened CacheOperations
  import opened CacheProtocol
  import opened CacheFence
  import opened CacheFreshness
  import opened CacheFlights
  import opened CacheGuarantees
  import opened CacheReturns
  import opened CacheEffects

  // ---------- From the store ----------

  /** A read finds what the store holds at that moment. */
  lemma LookFinds(s: Cache, id: nat)
    requires Enabled(s, DoLook(id))
    ensures var n := Step(s, DoLook(id));
            n.disk == s.disk && n.work.stages == s.work.stages[id := Looked(Found(s.disk.store, s.core.asks[id].key))]
  {
    hide Ready, Start;
  }

  /** A request is answered from the store if and only if its token is current and it has found a fresh record. Without
      a current token it goes to the network; otherwise it is a miss, which may revalidate a stale record. Only an expired
      record found under a current token is deleted. */
  lemma AnsweredFromStore(s: Cache, id: nat, verdict: Verdict)
    requires CacheInv(s) && Enabled(s, DoHandle(id, verdict))
    ensures var stage, found := Step(s, DoHandle(id, verdict)).work.stages[id], s.work.stages[id].found;
            var current := Holds(s.core.asks[id], s.core.current);
            && (stage == Over <==> current && found.Some? && verdict.Fresh?)
            && (stage == Sent <==> !current)
            && (stage.Missing? ==> stage.stale == if verdict.Stale? then found else None)
            && (stage.Missing? || stage == Over || stage == Sent)
    ensures var now, key := Step(s, DoHandle(id, verdict)).disk.store, s.core.asks[id].key;
            if Holds(s.core.asks[id], s.core.current) && s.work.stages[id].found.Some? && verdict.Expired?
            then key !in now && forall k | k != key :: Unchanged(s.disk.store, now, k)
            else now == s.disk.store
  {
    hide CacheInv, IsCurrent;
    TokenDecides(s, id);
  }

  // ---------- From the network ----------

  /** A stored answer carries the tags that its token has collected; if there are none, those of the record it has
      revalidated. */
  lemma StoredTags(s: Cache, id: nat)
    requires CacheInv(s) && Acts(s, id) && s.work.stages[id].Sent? && Holds(s.core.asks[id], s.core.current)
    requires !(Leads(s.work, id) && s.work.flights[id].rawDemanded)
    ensures var store, key, collected := Respond(s, id, Storable).disk.store, s.core.asks[id].key,
                                         s.core.tokens[s.core.asks[id].token].tags;
            && key in store
            && (collected != {} ==> store[key].tags == collected)
            && (collected == {} && id in s.work.stale ==> store[key].tags == s.work.stale[id].tags)
            && (collected == {} && id !in s.work.stale ==> store[key].tags == {})
  {
    hide CacheInv, IsCurrent, Leads;
    TokenDecides(s, id);
  }

  // ---------- By a leader ----------

  /** Whom a request can follow: a raw one only a raw leader, any other one first a data leader. */
  function LeaderFor(w: Work, a: Ask): Option<nat> {
    if !a.raw && a.key in w.inFlight then Some(w.inFlight[a.key])
    else if a.key in w.rawInFlight then Some(w.rawInFlight[a.key]) else None
  }

  /** With a current token and sharing on, a miss follows the leader of its key if there is one, and leads otherwise; in
      all other cases it goes to the network on its own. Whoever goes takes the stale record along. */
  ghost predicate MissedTo(s: Cache, n: Cache, id: nat, dedupe: bool)
    requires Acts(s, id) && s.work.stages[id].Missing?
  {
    var a, stale := s.core.asks[id], s.work.stages[id].stale;
    var shares, leader := dedupe && Holds(a, s.core.current), LeaderFor(s.work, a);
    var stage := if shares && leader.Some? then Following(leader.value) else Sent;
    && n.core == s.core && n.disk == s.disk && n.work.stages == s.work.stages[id := stage]
    && (Leads(n.work, id) <==> shares && leader.None?)
    && (Leads(n.work, id) ==>
          && n.work.flights[id] == Flight(a.raw, false, false, true, [])
          && LeaderFor(n.work, a) == Some(id))
    && (shares && leader.Some? && leader.value in s.work.flights ==>
          n.work.flights == s.work.flights[leader.value := s.work.flights[leader.value].(promised := true)])
    && n.work.stale == (if stage == Sent && Holds(a, s.core.current) && stale.Some? then s.work.stale[id := stale.value]
                        else s.work.stale)
  }

  lemma MissExactly(s: Cache, id: nat, dedupe: bool)
    requires CacheInv(s) && Enabled(s, DoMiss(id, dedupe))
    ensures MissedTo(s, Step(s, DoMiss(id, dedupe)), id, dedupe)
  {
    hide CacheInv, IsCurrent, MissedTo, Miss;
    TokenDecides(s, id);
    WorkKept(s);
    NotLeading(s, id);
    hide WorkInv;
    MissMoves(s, id, dedupe);
  }

  lemma MissMoves(s: Cache, id: nat, dedupe: bool)
    requires Acts(s, id) && s.work.stages[id].Missing? && id !in s.work.flights
    requires IsCurrent(s.core, s.core.asks[id]) <==> Holds(s.core.asks[id], s.core.current)
    ensures MissedTo(s, Miss(s, id, dedupe), id, dedupe)
  {
    var a, stale := s.core.asks[id], s.work.stages[id].stale;
    SameLeader(s.work, a);
    if LeaderFor(s.work, a).None? {
      LedAlone(s.work, id, a, stale);
    }
    hide IsCurrent, Pending, LeaderFor, Lead;
  }

  lemma SameLeader(w: Work, a: Ask)
    ensures Pending(w, a) == LeaderFor(w, a)
  {
  }

  lemma LedAlone(w: Work, id: nat, a: Ask, stale: Option<Entry>)
    requires LeaderFor(w, a).None?
    ensures var n := Leave(Lead(w, id, a), id, stale);
            && Leads(n, id) && n.flights[id] == Flight(a.raw, false, false, true, []) && LeaderFor(n, a) == Some(id)
            && n.stages == w.stages[id := Sent]
            && n.stale == if stale.Some? then w.stale[id := stale.value] else w.stale
  {
    hide Demand;
  }

  lemma WorkKept(s: Cache)
    requires CacheInv(s)
    ensures WorkInv(s)
  {
  }

  /** A follower gets its answer with the leader's record or failure, and goes to the network when the leader has
      nothing to share. */
  lemma WokenExactly(s: Cache, id: nat)
    requires Enabled(s, DoWake(id))
    ensures var n, p := Step(s, DoWake(id)), s.work.stages[id].leader;
            && n.work.stages == s.work.stages[id := if s.work.flights[p].outcomes[0] == Nothing then Sent else Over]
            && n.core == s.core && n.disk == s.disk
  {
  }

  /** What a leader leaves to its followers: its record if the answer may be shared and the request succeeds, nothing
      if the answer may not be shared, a failure otherwise. An answer that must not be stored is still shared once
      somebody follows. */
  ghost predicate Leaves(a: Ask, id: nat, answer: Answer, succeeded: bool, outcomes: seq<Outcome>) {
    && |outcomes| == 1
    && if answer == Opaque || answer == Stream then outcomes[0] == Nothing
       else if !succeeded then outcomes[0] == Failure
       else outcomes[0].Shared? && outcomes[0].entry.origin == ByRequest(id) && a.tags <= outcomes[0].entry.tags
  }

  lemma LeaderLeaves(s: Cache, id: nat, answer: Answer, succeeded: bool)
    requires CacheInv(s) && Acts(s, id) && Leads(s.work, id) && s.work.flights[id].promised
    requires id !in s.work.uncacheable && id !in s.work.completed
    ensures var r := Respond(s, id, answer);
            && Acts(r, id)
            && var n := Settle(r, id, succeeded).work.flights;
               id in n && Leaves(s.core.asks[id], id, answer, succeeded, n[id].outcomes)
  {
    hide CacheInv, Leaves, Respond, Settle, Leads;
    CoreOf(s);
    WorkKept(s);
    FreshPromise(s, id);
    RespondCore(s, id, answer);
    EntryTags(s, id);
    hide WorkInv, CoreInv, DiskInv;
    Answered(s, id, answer);
    SettledWith(Respond(s, id, answer), id, succeeded);
    Outcomes(s.core.asks[id], id, answer, succeeded, EntryOf(s, id));
  }

  lemma Outcomes(a: Ask, id: nat, answer: Answer, succeeded: bool, own: Entry)
    requires own.origin == ByRequest(id) && a.tags <= own.tags
    ensures Leaves(a, id, answer, succeeded,
                   [if answer == Opaque || answer == Stream then Nothing else if succeeded then Shared(own) else Failure])
  {
  }

  /** What an answer notes about its leader. */
  lemma Answered(s: Cache, id: nat, answer: Answer)
    requires Acts(s, id) && Leads(s.work, id) && s.work.flights[id].promised
    requires id !in s.work.uncacheable && id !in s.work.completed
    ensures var w, nothing := Respond(s, id, answer).work, answer == Opaque || answer == Stream;
            && w.flights == s.work.flights && w.stages == s.work.stages && Respond(s, id, answer).installed == s.installed
            && Leads(w, id)
            && (id in w.uncacheable <==> nothing)
            && (!nothing ==> id in w.completed && w.completed[id] == EntryOf(s, id))
  {
    hide IsCurrent, Drop, Save, EntryOf;
  }

  lemma SettledWith(s: Cache, id: nat, succeeded: bool)
    requires Acts(s, id) && Leads(s.work, id) && s.work.flights[id].promised && s.work.flights[id].outcomes == []
    requires id in s.work.uncacheable || id in s.work.completed
    ensures var n := Settle(s, id, succeeded).work.flights;
            && id in n
            && n[id].outcomes == [if id in s.work.uncacheable then Nothing
                                  else if succeeded then Shared(s.work.completed[id]) else Failure]
  {
    hide Release, Unlink;
  }

  lemma FreshPromise(s: Cache, id: nat)
    requires WorkInv(s) && Leads(s.work, id)
    ensures s.work.flights[id].outcomes == []
  {
    assert FlightOk(id, s.work.flights[id], s.core.asks, s.core.open, s.work.stages, s.installed);
    hide LeadersFound, Together, FollowersOk;
  }
}
