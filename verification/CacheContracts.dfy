/** What each step of the cache protocol gives the caller of its hook, in every reachable state. */
module CacheContracts {
  import opened Collections
  import opened CacheOperations
  import opened CacheProtocol
  import opened CacheFence
  import opened CacheFreshness
  import opened CacheFlights
  import opened CacheGuarantees
  import opened CacheReturns

  // ---------- Reachable states ----------

  /** Some events lead here from the state of a new plugin. */
  ghost predicate Reachable(s: Cache) {
    exists events :: LeadTo(events, s)
  }

  ghost predicate LeadTo(events: seq<Event>, s: Cache) {
    Allowed(EMPTY, events) && Run(EMPTY, events) == s
  }

  lemma EmptyReachable()
    ensures Reachable(EMPTY)
  {
    assert LeadTo([], EMPTY);
  }

  lemma ReachableInv(s: Cache)
    requires Reachable(s)
    ensures CacheInv(s)
  {
    hide CacheInv;
    var events :| LeadTo(events, s);
    RunFromEmpty(events);
  }

  lemma StepReachable(s: Cache, e: Event)
    requires Reachable(s) && Enabled(s, e)
    ensures Reachable(Step(s, e))
  {
    hide Enabled, Step;
    var events :| LeadTo(events, s);
    RunOne(s, e);
    RunConcat(EMPTY, events, [e]);
    assert LeadTo(events + [e], Step(s, e));
  }

  lemma InstallFacts(s: Cache)
    requires Reachable(s)
    ensures s.installs !in s.installed
  {
    hide Reachable, CoreInv, DiskInv, LinksOk, LeadersFound, Together, FollowersOk;
    ReachableInv(s);
  }

  // ---------- Operations and reads ----------

  /** Everything the operation must follow has finished. */
  ghost predicate Unhindered(ops: map<nat, Op>, id: nat)
    requires id in ops
  {
    forall i | i in ops && i < id && MustFollow(ops[i].kind, ops[id].kind) :: ops[i].phase.Done?
  }

  lemma StartedUnhindered(s: Cache, id: nat)
    requires CacheInv(s) && id in s.core.ops.ops && !s.core.ops.ops[id].phase.Waiting?
    ensures Unhindered(s.core.ops.ops, id)
  {
    hide CacheInv, CoreInv, DiskInv, MustFollow;
    CoreOf(s);
    CoreNumbered(s.core);
  }

  lemma BeginFacts(s: Cache, id: nat, works: bool)
    requires Reachable(s) && Enabled(s, DoBegin(id, works))
    ensures var n := Step(s, DoBegin(id, works)); id in n.core.ops.ops && Unhindered(n.core.ops.ops, id)
    ensures id in s.core.ops.ops && Ready(s.core.ops, id) && Step(s, DoBegin(id, works)) == Begin(s, id, works)
  {
    hide Reachable, CacheInv, Effect, Unhindered;
    ReachableInv(s);
    StepCache(s, DoBegin(id, works));
    StartedUnhindered(Step(s, DoBegin(id, works)), id);
  }

  lemma LookFacts(s: Cache, id: nat)
    requires Reachable(s) && Enabled(s, DoLook(id))
    ensures var n := Step(s, DoLook(id)).core.ops.ops; id in n && Unhindered(n, id)
  {
    hide Reachable, CacheInv, Unhindered;
    ReachableInv(s);
    StepCache(s, DoLook(id));
    StartedUnhindered(Step(s, DoLook(id)), id);
  }

  // ---------- Tokens ----------

  /** Exactly the unsettled requests whose token a mutation concerns lose a current one; no request whose own key or
      tags it concerns holds one. */
  ghost predicate FencedOff(c: Core, n: Core, kind: Kind) {
    && (forall r | r in c.asks && Concerns(kind, c.asks[r].key, c.asks[r].tags) :: !Holds(c.asks[r], n.current))
    && (forall r | r in c.open && r in c.asks && c.asks[r].token in c.tokens && Holds(c.asks[r], c.current) ::
          Holds(c.asks[r], n.current) <==> !Concerns(kind, c.asks[r].key, c.tokens[c.asks[r].token].tags))
  }

  lemma MutateFacts(s: Cache, kind: Kind, sync: bool, works: bool, keep: bool)
    requires Reachable(s) && Enabled(s, DoMutate(kind, sync, works, keep))
    ensures var n := Step(s, DoMutate(kind, sync, works, keep));
            FencedOff(s.core, n.core, kind) && Mutates(kind) && n == Mutate(s, kind, sync, works, keep)
  {
    hide Reachable, CacheInv, CoreInv, DiskInv, Enabled, Step, Concerns;
    var e := DoMutate(kind, sync, works, keep);
    var c, n := s.core, Step(s, e).core;
    ReachableInv(s);
    CoreOf(s);
    forall r | r in c.asks && Concerns(kind, c.asks[r].key, c.asks[r].tags) ensures !Holds(c.asks[r], n.current) {
      ConcernedLoses(s, kind, sync, works, keep, r);
    }
    forall r | r in c.open && r in c.asks && c.asks[r].token in c.tokens && Holds(c.asks[r], c.current)
      ensures Holds(c.asks[r], n.current) <==> !Concerns(kind, c.asks[r].key, c.tokens[c.asks[r].token].tags)
    {
      TokenDiesExactly(s, e, r);
    }
    StepMutates(s, kind, sync, works, keep);
  }

  lemma StepMutates(s: Cache, kind: Kind, sync: bool, works: bool, keep: bool)
    requires Enabled(s, DoMutate(kind, sync, works, keep))
    ensures Mutates(kind) && Step(s, DoMutate(kind, sync, works, keep)) == Mutate(s, kind, sync, works, keep)
  {
  }

  lemma ConcernedLoses(s: Cache, kind: Kind, sync: bool, works: bool, keep: bool, r: nat)
    requires CacheInv(s) && Enabled(s, DoMutate(kind, sync, works, keep)) && r in s.core.asks
    requires Concerns(kind, s.core.asks[r].key, s.core.asks[r].tags)
    ensures !Holds(s.core.asks[r], Step(s, DoMutate(kind, sync, works, keep)).core.current)
  {
    hide Issue, Effects, OpsInv, Fence, Counted, GenerationOk, DiskInv, WorkInv, StagesOk, ReadingOk;
    assert AskOk(r, s.core.asks[r], s.core.tokens, s.core.ops);
  }

  /** A new request holds a current token with its tags, and nobody else has gained or lost one. */
  ghost predicate Joined(c: Core, n: Core, id: nat, tags: set<Tag>) {
    && id in n.asks && Holds(n.asks[id], n.current)
    && n.asks[id].token in n.tokens && tags <= n.tokens[n.asks[id].token].tags
    && forall r | r in c.asks :: r in n.asks && (Holds(n.asks[r], n.current) <==> Holds(c.asks[r], c.current))
  }

  /** The current token of the key, if there is one, is a token of the key, and the number of the next one is free. */
  ghost predicate TokenFound(c: Core, key: Key) {
    && c.ops.next !in c.tokens
    && (key in c.current ==> c.current[key] in c.tokens && c.tokens[c.current[key]].key == key)
  }

  lemma RequestFacts(s: Cache, i: nat, key: Key, tags: set<Tag>, raw: bool)
    requires Reachable(s) && i in s.installed
    ensures Enabled(s, DoRequest(i, key, tags, raw))
    ensures var n := Step(s, DoRequest(i, key, tags, raw));
            Joined(s.core, n.core, s.core.ops.next, tags) && n == Request(s, i, key, tags, raw)
    ensures TokenFound(s.core, key)
  {
    hide Reachable, CacheInv, OpsInv, Counted, Fence, DiskInv, Issue;
    ReachableInv(s);
    CoreOf(s);
    CoreNumbered(s.core);
    OpsNumbered(s.core.ops);
    HeldBefore(s.core, i, key, tags, raw);
  }

  // ---------- The store ----------

  /** The store changes under a current token only, and at the key of the request only. */
  ghost predicate TokenGuarded(s: Cache, n: Cache, id: nat) {
    && id in s.core.asks
    && n.disk.store - {s.core.asks[id].key} == s.disk.store - {s.core.asks[id].key}
    && (n.disk.store != s.disk.store ==> Holds(s.core.asks[id], s.core.current))
  }

  /** Under a current token a response that must not be stored leaves no record of its key, and one that may be stored
      leaves its own, unless a raw leader is to write. */
  ghost predicate Replaced(s: Cache, n: Cache, id: nat, answer: Answer) {
    id in s.core.asks && Holds(s.core.asks[id], s.core.current) ==>
      var key := s.core.asks[id].key;
      match answer
      case Opaque => n.disk.store == s.disk.store
      case Storable =>
        if Leads(s.work, id) && s.work.flights[id].rawDemanded then n.disk.store == s.disk.store
        else
          && key in n.disk.store && n.disk.store[key].origin == ByRequest(id)
          && s.core.asks[id].tags <= n.disk.store[key].tags
      case _ => key !in n.disk.store
  }

  lemma HandleFacts(s: Cache, id: nat, verdict: Verdict)
    requires Reachable(s) && Enabled(s, DoHandle(id, verdict))
    ensures Acts(s, id) && s.work.stages[id].Looked?
    ensures var n := Step(s, DoHandle(id, verdict)); TokenGuarded(s, n, id) && n == Handle(s, id, verdict)
  {
    hide Reachable, CacheInv, IsCurrent, At, Handled;
    ReachableInv(s);
    TokenDecides(s, id);
  }

  lemma RespondFacts(s: Cache, id: nat, answer: Answer)
    requires Reachable(s) && Enabled(s, DoRespond(id, answer))
    ensures var n := Step(s, DoRespond(id, answer)); TokenGuarded(s, n, id) && Replaced(s, n, id, answer)
    ensures var m := Respond(s, id, answer); Step(s, DoRespond(id, answer)) == s.(disk := m.disk, work := m.work)
  {
    hide Reachable, CacheInv, CoreInv, DiskInv, IsCurrent, EntryOf;
    ReachableInv(s);
    CoreOf(s);
    TokenDecides(s, id);
    EntryTags(s, id);
  }

  // ---------- Flights ----------

  /** A leader holds a current token, and no other leader of its kind and key does. */
  ghost predicate LeadsAlone(s: Cache, id: nat) {
    Leads(s.work, id) ==>
      && id in s.core.asks && Holds(s.core.asks[id], s.core.current)
      && forall p | Leads(s.work, p) && p in s.core.asks && s.work.flights[p].raw == s.work.flights[id].raw
                    && s.core.asks[p].key == s.core.asks[id].key && Holds(s.core.asks[p], s.core.current) :: p == id
  }

  /** A follower waits for an unsettled promise of its key, and shares its leader's token exactly when that is
      current. */
  ghost predicate FollowsLive(s: Cache, id: nat) {
    id in s.work.stages && s.work.stages[id].Following? ==>
      var p := s.work.stages[id].leader;
      && Leads(s.work, p) && s.work.flights[p].promised && s.work.flights[p].outcomes == []
      && id in s.core.asks && p in s.core.asks && s.core.asks[p].key == s.core.asks[id].key
      && (s.core.asks[id].raw ==> s.core.asks[p].raw)
      && (s.core.asks[p].token == s.core.asks[id].token <==> Holds(s.core.asks[p], s.core.current))
  }

  lemma MissFacts(s: Cache, id: nat, dedupe: bool)
    requires Reachable(s) && Enabled(s, DoMiss(id, dedupe))
    ensures var n := Step(s, DoMiss(id, dedupe)); LeadsAlone(n, id) && FollowsLive(n, id)
    ensures Step(s, DoMiss(id, dedupe)) == s.(work := Miss(s, id, dedupe).work)
  {
    hide Reachable, CacheInv, WorkInv, Miss, IsCurrent, Pending, LeadsAlone, FollowsLive;
    var e := DoMiss(id, dedupe);
    ReachableInv(s);
    StepCache(s, e);
    WorkOf(s);
    WorkOf(Step(s, e));
    NotLeading(s, id);
    TokenDecides(s, id);
    OnlyWork(s, id, dedupe);
    MissLeads(s, id, dedupe);
    OnlyLeader(Step(s, e), id);
    if IsCurrent(s.core, s.core.asks[id]) && dedupe && Pending(s.work, s.core.asks[id]).Some? {
      JoinedLive(s, id);
    } else {
      NotFollowing(s, id, dedupe);
    }
  }

  lemma WorkOf(s: Cache)
    requires CacheInv(s)
    ensures WorkInv(s)
  {
  }

  lemma OnlyWork(s: Cache, id: nat, dedupe: bool)
    requires id in s.core.asks && id in s.work.stages && s.work.stages[id].Missing?
    ensures Miss(s, id, dedupe) == s.(work := Miss(s, id, dedupe).work)
  {
  }

  lemma MissLeads(s: Cache, id: nat, dedupe: bool)
    requires Acts(s, id) && s.work.stages[id].Missing? && id !in s.work.flights
    ensures Leads(Miss(s, id, dedupe).work, id) ==> IsCurrent(s.core, s.core.asks[id])
  {
    hide IsCurrent, Pending;
  }

  lemma OnlyLeader(n: Cache, id: nat)
    requires WorkInv(n) && (Leads(n.work, id) ==> id in n.core.asks && Holds(n.core.asks[id], n.core.current))
    ensures LeadsAlone(n, id)
  {
    hide LinksOk, Together, FollowersOk;
  }

  lemma NotFollowing(s: Cache, id: nat, dedupe: bool)
    requires Acts(s, id) && s.work.stages[id].Missing?
    requires !IsCurrent(s.core, s.core.asks[id]) || !dedupe || Pending(s.work, s.core.asks[id]).None?
    ensures FollowsLive(Miss(s, id, dedupe), id)
  {
    hide IsCurrent, Pending;
  }

  lemma JoinedLive(s: Cache, id: nat)
    requires WorkInv(s) && Acts(s, id) && s.work.stages[id].Missing? && IsCurrent(s.core, s.core.asks[id])
    requires Pending(s.work, s.core.asks[id]).Some?
    ensures FollowsLive(Miss(s, id, true), id)
  {
    JoinSharesExactly(s, id);
    FollowerFinds(s, id);
    var p := Pending(s.work, s.core.asks[id]).value;
    assert FlightOk(p, s.work.flights[p], s.core.asks, s.core.open, s.work.stages, s.installed);
    hide WorkInv, Pending, IsCurrent, Miss;
  }

  /** The flight of a leader gets its one outcome if anybody asked for it; every other flight stays as it is. */
  ghost predicate SettlesOnce(s: Cache, n: Cache, id: nat) {
    && (forall p | p in s.work.flights && (p != id || !Leads(s.work, id)) ::
          p in n.work.flights && n.work.flights[p] == s.work.flights[p])
    && (Leads(s.work, id) ==>
          && s.work.flights[id].outcomes == []
          && id in n.work.flights && !n.work.flights[id].registered
          && |n.work.flights[id].outcomes| == if s.work.flights[id].promised then 1 else 0)
  }

  /** A settled request is unsettled no more, and the others hold current tokens as before. */
  ghost predicate OthersHold(c: Core, n: Core, id: nat) {
    && n.open == c.open - {id} && n.asks == c.asks
    && forall r | r in n.open && r in c.asks :: Holds(c.asks[r], n.current) <==> Holds(c.asks[r], c.current)
  }

  lemma SettleFacts(s: Cache, id: nat, succeeded: bool)
    requires Reachable(s) && Enabled(s, DoSettle(id, succeeded))
    ensures var n := Step(s, DoSettle(id, succeeded));
            SettlesOnce(s, n, id) && OthersHold(s.core, n.core, id) && Acts(s, id) && n == Settle(s, id, succeeded)
  {
    hide Reachable, CacheInv, CoreInv, DiskInv, WorkInv, SettlesOnce, OthersHold, Land, Release;
    ReachableInv(s);
    CoreOf(s);
    WorkOf(s);
    SettledFlight(s, id, succeeded);
    SettledTokens(s.core, id);
  }

  lemma SettledFlight(s: Cache, id: nat, succeeded: bool)
    requires WorkInv(s) && Acts(s, id)
    ensures SettlesOnce(s, Settle(s, id, succeeded), id)
  {
    if Leads(s.work, id) {
      assert FlightOk(id, s.work.flights[id], s.core.asks, s.core.open, s.work.stages, s.installed);
    }
    hide WorkInv, Release, Unlink, Result;
  }

  lemma SettledTokens(c: Core, id: nat)
    requires CoreInv(c) && id in c.open && id in c.asks && c.asks[id].token in c.tokens
    ensures OthersHold(c, Release(c, id), id)
  {
    ReleaseSame(c, id);
    forall r | r in c.open && r in c.asks && r != id
      ensures Holds(c.asks[r], Release(c, id).current) <==> Holds(c.asks[r], c.current)
    {
      ReleaseHolds(c, id, r);
    }
    hide CoreInv;
  }

  /** The flights an installation led fail, once each and only if anybody asked for them; no other flight changes. */
  ghost predicate RejectsOwned(s: Cache, n: Cache, installation: nat) {
    forall p | p in s.work.flights ::
      && p in n.work.flights
      && (if Owned(s.work, s.core.asks, p, installation) then
            && !n.work.flights[p].registered
            && n.work.flights[p].outcomes == if s.work.flights[p].promised then [Failure] else []
          else n.work.flights[p] == s.work.flights[p])
  }

  lemma UninstallFacts(s: Cache, installation: nat)
    requires Reachable(s) && installation in s.installed
    ensures Enabled(s, DoUninstall(installation)) && RejectsOwned(s, Step(s, DoUninstall(installation)), installation)
    ensures Step(s, DoUninstall(installation)) == Uninstall(s, installation)
    ensures var left := Abandon(s.work, s.core.asks, installation);
            left == s.work.(flights := left.flights, inFlight := left.inFlight, rawInFlight := left.rawInFlight)
    ensures LinksOk(s.work, s.core.asks, s.core.open, s.installed)
  {
    hide Reachable, CacheInv, LeadersFound, Together, FollowersOk, MapOk, DemandOk, RecordsOk;
    ReachableInv(s);
    WorkOf(s);
    forall p | p in s.work.flights
      ensures s.work.flights[p].registered ==> s.work.flights[p].outcomes == []
    {
      assert FlightOk(p, s.work.flights[p], s.core.asks, s.core.open, s.work.stages, s.installed);
    }
    hide FlightsOk;
  }
}
