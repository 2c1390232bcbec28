/** Leaders and followers of the cache protocol: who may lead, what a follower may count on. */
module CacheFlights {
  import opened Collections
  import opened CacheOperations
  import opened CacheProtocol
  import opened CacheFence

  type Asks = map<nat, Ask>

  // ---------- The invariant ----------

  /** A registered flight has an unsettled leader on its way and an unsettled promise; any other flight has settled
      its promise exactly once, if anybody ever asked for it, and its leader never acts again. */
  ghost predicate FlightOk(p: nat, f: Flight, asks: Asks, open: set<nat>, stages: map<nat, Stage>,
                           installed: set<nat>) {
    && p in asks && f.raw == asks[p].raw
    && if f.registered then
         p in open && asks[p].installation in installed && p in stages && stages[p].Sent? && f.outcomes == []
       else
         (p !in open || asks[p].installation !in installed) && |f.outcomes| == if f.promised then 1 else 0
  }

  ghost predicate FlightsOk(w: Work, asks: Asks, open: set<nat>, installed: set<nat>) {
    forall p | p in w.flights :: FlightOk(p, w.flights[p], asks, open, w.stages, installed)
  }

  /** The flight found under a key is a registered one of that key and kind. */
  ghost predicate MapOk(inFlight: map<Key, nat>, raw: bool, flights: map<nat, Flight>, asks: Asks) {
    forall k | k in inFlight ::
      && inFlight[k] in flights && flights[inFlight[k]].registered && flights[inFlight[k]].raw == raw
      && inFlight[k] in asks && asks[inFlight[k]].key == k
  }

  function MapOf(w: Work, raw: bool): map<Key, nat> {
    if raw then w.rawInFlight else w.inFlight
  }

  /** A leader whose token is current is found under its key. */
  ghost predicate LeadersFound(w: Work, asks: Asks, current: map<Key, nat>) {
    forall p | p in w.flights && w.flights[p].registered && p in asks && Holds(asks[p], current) ::
      var m := MapOf(w, w.flights[p].raw); asks[p].key in m && m[asks[p].key] == p
  }

  /** Whoever is found under a key holds its current token, or is an orphan. */
  ghost predicate FoundCurrent(inFlight: map<Key, nat>, asks: Asks, current: map<Key, nat>, orphans: set<nat>) {
    forall k | k in inFlight ::
      inFlight[k] in asks && (Holds(asks[inFlight[k]], current) || inFlight[k] in orphans)
  }

  ghost predicate Together(w: Work, asks: Asks, current: map<Key, nat>, orphans: set<nat>) {
    FoundCurrent(w.inFlight, asks, current, orphans) && FoundCurrent(w.rawInFlight, asks, current, orphans)
  }

  ghost predicate FollowerOk(a: Ask, leader: nat, flights: map<nat, Flight>, asks: Asks, orphans: set<nat>) {
    && leader in flights && flights[leader].promised && leader in asks && asks[leader].key == a.key
    && (a.raw ==> asks[leader].raw)
    && (leader in orphans || asks[leader].token == a.token)
  }

  ghost predicate FollowersOk(w: Work, asks: Asks, orphans: set<nat>) {
    forall r | r in w.stages && w.stages[r].Following? ::
      r in asks && FollowerOk(asks[r], w.stages[r].leader, w.flights, asks, orphans)
  }

  /** Beside a raw leader the data leader has been told not to write. */
  ghost predicate DemandOk(w: Work) {
    forall k | k in w.inFlight && k in w.rawInFlight ::
      w.inFlight[k] in w.flights && w.flights[w.inFlight[k]].rawDemanded
  }

  /** Leaders share only records of their own. */
  ghost predicate RecordsOk(w: Work) {
    && (forall id | id in w.completed :: w.completed[id].origin == ByRequest(id))
    && (forall p | p in w.flights :: OwnOutcomes(p, w.flights[p]))
  }

  ghost predicate OwnOutcomes(p: nat, f: Flight) {
    forall e | Shared(e) in f.outcomes :: e.origin == ByRequest(p)
  }

  ghost predicate LinksOk(w: Work, asks: Asks, open: set<nat>, installed: set<nat>) {
    && FlightsOk(w, asks, open, installed)
    && MapOk(w.inFlight, false, w.flights, asks) && MapOk(w.rawInFlight, true, w.flights, asks)
    && DemandOk(w) && RecordsOk(w)
  }

  ghost predicate WorkInv(s: Cache) {
    && LinksOk(s.work, s.core.asks, s.core.open, s.installed)
    && LeadersFound(s.work, s.core.asks, s.core.current)
    && Together(s.work, s.core.asks, s.core.current, s.orphans)
    && FollowersOk(s.work, s.core.asks, s.orphans)
    && (forall i | i in s.installed :: i < s.installs)
    && (forall r | r in s.core.asks :: s.core.asks[r].installation < s.installs)
  }

  // ---------- Stages ----------

  lemma MoveWork(s: Cache, id: nat, stage: Stage)
    requires WorkInv(s) && Acts(s, id) && !s.work.stages[id].Sent? && !stage.Following?
    ensures WorkInv(s.(work := At(s.work, id, stage)))
  {
  }

  /** Nothing here depends on what is to be revalidated, marked or completed. */
  lemma MarkedWork(s: Cache, w: Work)
    requires WorkInv(s)
    requires w.stages == s.work.stages && w.flights == s.work.flights
    requires w.inFlight == s.work.inFlight && w.rawInFlight == s.work.rawInFlight
    requires forall id | id in w.completed :: w.completed[id].origin == ByRequest(id)
    ensures WorkInv(s.(work := w))
  {
  }

  // ---------- Joining and leading ----------

  lemma JoinLinks(w: Work, id: nat, leader: nat, asks: Asks, open: set<nat>, installed: set<nat>)
    requires LinksOk(w, asks, open, installed) && leader in w.flights && w.flights[leader].registered
    requires id !in w.flights || !w.flights[id].registered
    ensures LinksOk(Join(w, id, leader), asks, open, installed)
  {
  }

  lemma JoinOthers(w: Work, id: nat, leader: nat, asks: Asks, current: map<Key, nat>, orphans: set<nat>)
    requires LeadersFound(w, asks, current) && FollowersOk(w, asks, orphans) && leader in w.flights
    requires id in asks && FollowerOk(asks[id], leader, Join(w, id, leader).flights, asks, orphans)
    ensures LeadersFound(Join(w, id, leader), asks, current) && FollowersOk(Join(w, id, leader), asks, orphans)
    ensures Together(w, asks, current, orphans) ==> Together(Join(w, id, leader), asks, current, orphans)
  {
  }

  /** A follower with a current token finds a leader of its key, which holds the same token or is an orphan. */
  lemma FollowerFinds(s: Cache, id: nat)
    requires WorkInv(s) && Acts(s, id) && IsCurrent(s.core, s.core.asks[id])
    requires Pending(s.work, s.core.asks[id]).Some?
    ensures var leader := Pending(s.work, s.core.asks[id]).value;
            && leader in s.work.flights && s.work.flights[leader].registered
            && FollowerOk(s.core.asks[id], leader, Join(s.work, id, leader).flights, s.core.asks, s.orphans)
  {
    var a := s.core.asks[id];
    var leader := Pending(s.work, a).value;
    assert FlightOk(leader, s.work.flights[leader], s.core.asks, s.core.open, s.work.stages, s.installed);
    hide LeadersFound, FollowersOk, RecordsOk, DemandOk;
  }

  lemma JoinWork(s: Cache, id: nat)
    requires WorkInv(s) && Acts(s, id) && s.work.stages[id].Missing? && IsCurrent(s.core, s.core.asks[id])
    requires Pending(s.work, s.core.asks[id]).Some?
    ensures WorkInv(s.(work := Join(s.work, id, Pending(s.work, s.core.asks[id]).value)))
  {
    NotLeading(s, id);
    FollowerFinds(s, id);
    var leader := Pending(s.work, s.core.asks[id]).value;
    hide LinksOk, LeadersFound, Together, FollowersOk, Join, Pending, FollowerOk;
    JoinLinks(s.work, id, leader, s.core.asks, s.core.open, s.installed);
    JoinOthers(s.work, id, leader, s.core.asks, s.core.current, s.orphans);
  }

  lemma NotLeading(s: Cache, id: nat)
    requires WorkInv(s) && Acts(s, id) && !s.work.stages[id].Sent?
    ensures id !in s.work.flights
  {
  }

  lemma LeadLinks(w: Work, id: nat, a: Ask, stale: Option<Entry>, asks: Asks, open: set<nat>, installed: set<nat>)
    requires LinksOk(w, asks, open, installed) && id !in w.flights && id in asks && asks[id] == a
    requires id in open && a.installation in installed && Pending(w, a).None?
    ensures LinksOk(Leave(Lead(w, id, a), id, stale), asks, open, installed)
  {
    LeadFlights(w, id, a, stale, asks, open, installed);
    LeadMaps(w, id, a, stale, asks);
    hide FlightsOk, MapOk, RecordsOk, DemandOk, Lead, Leave;
  }

  lemma LeadFlights(w: Work, id: nat, a: Ask, stale: Option<Entry>, asks: Asks, open: set<nat>, installed: set<nat>)
    requires FlightsOk(w, asks, open, installed) && RecordsOk(w) && id !in w.flights && id in asks && asks[id] == a
    requires id in open && a.installation in installed
    ensures var n := Leave(Lead(w, id, a), id, stale); FlightsOk(n, asks, open, installed) && RecordsOk(n)
  {
    var n := Leave(Lead(w, id, a), id, stale);
    assert OwnOutcomes(id, n.flights[id]);
    assert FlightOk(id, n.flights[id], asks, open, n.stages, installed);
    forall p | p in n.flights && p != id
      ensures FlightOk(p, n.flights[p], asks, open, n.stages, installed) && OwnOutcomes(p, n.flights[p])
    {
      assert FlightOk(p, w.flights[p], asks, open, w.stages, installed) && OwnOutcomes(p, w.flights[p]);
    }
    hide FlightOk, OwnOutcomes;
  }

  lemma LeadMaps(w: Work, id: nat, a: Ask, stale: Option<Entry>, asks: Asks)
    requires MapOk(w.inFlight, false, w.flights, asks) && MapOk(w.rawInFlight, true, w.flights, asks) && DemandOk(w)
    requires id !in w.flights && id in asks && asks[id] == a && Pending(w, a).None?
    ensures var n := Leave(Lead(w, id, a), id, stale);
            && MapOk(n.inFlight, false, n.flights, asks) && MapOk(n.rawInFlight, true, n.flights, asks) && DemandOk(n)
  {
  }

  lemma LeadOthers(w: Work, id: nat, a: Ask, stale: Option<Entry>, asks: Asks, current: map<Key, nat>, orphans: set<nat>)
    requires LeadersFound(w, asks, current) && FollowersOk(w, asks, orphans) && id !in w.flights
    requires id in asks && asks[id] == a && Holds(a, current) && Pending(w, a).None?
    ensures var n := Leave(Lead(w, id, a), id, stale);
            && LeadersFound(n, asks, current) && FollowersOk(n, asks, orphans)
            && (Together(w, asks, current, orphans) ==> Together(n, asks, current, orphans))
  {
    LeadFound(w, id, a, stale, asks, current);
    hide LeadersFound;
  }

  lemma LeadFound(w: Work, id: nat, a: Ask, stale: Option<Entry>, asks: Asks, current: map<Key, nat>)
    requires LeadersFound(w, asks, current) && id !in w.flights
    requires id in asks && asks[id] == a && Holds(a, current) && Pending(w, a).None?
    ensures LeadersFound(Leave(Lead(w, id, a), id, stale), asks, current)
  {
  }

  lemma LeadWork(s: Cache, id: nat)
    requires WorkInv(s) && Acts(s, id) && s.work.stages[id].Missing? && IsCurrent(s.core, s.core.asks[id])
    requires Pending(s.work, s.core.asks[id]).None?
    ensures WorkInv(s.(work := Leave(Lead(s.work, id, s.core.asks[id]), id, s.work.stages[id].stale)))
  {
    NotLeading(s, id);
    hide LinksOk, LeadersFound, Together, FollowersOk, Lead, Leave, Pending, Holds;
    LeadLinks(s.work, id, s.core.asks[id], s.work.stages[id].stale, s.core.asks, s.core.open, s.installed);
    LeadOthers(s.work, id, s.core.asks[id], s.work.stages[id].stale, s.core.asks, s.core.current, s.orphans);
  }

  lemma LeaveWork(s: Cache, id: nat, stale: Option<Entry>)
    requires WorkInv(s) && Acts(s, id) && !s.work.stages[id].Sent?
    ensures WorkInv(s.(work := Leave(s.work, id, stale)))
  {
  }

  lemma CompletedOwn(s: Cache)
    requires WorkInv(s)
    ensures forall id | id in s.work.completed :: s.work.completed[id].origin == ByRequest(id)
  {
  }

  // ---------- Requests come and go ----------

  lemma AcquireWork(s: Cache, i: nat, key: Key, tags: set<Tag>, raw: bool)
    requires WorkInv(s) && CoreInv(s.core) && i in s.installed
    ensures WorkInv(Request(s, i, key, tags, raw))
  {
    hide CoreInv, Acquire, LinksOk, LeadersFound, Together, FollowersOk, Holds, At;
    var c, id := s.core, s.core.ops.next;
    var n := Acquire(c, i, key, tags, raw);
    FreshAsk(c);
    AcquireHolds(c, i, key, tags, raw);
    FlightsKnown(s);
    AcquireLinks(s.work, id, n.asks[id], c.asks, c.open, s.installed);
    AcquireFound(s.work, id, n.asks[id], c.asks, c.current, n.current, s.orphans);
  }

  lemma FlightsKnown(s: Cache)
    requires WorkInv(s)
    ensures forall p | p in s.work.flights :: p in s.core.asks
  {
  }

  lemma AcquireHolds(c: Core, i: nat, key: Key, tags: set<Tag>, raw: bool)
    requires CoreInv(c)
    ensures var n := Acquire(c, i, key, tags, raw);
            && c.ops.next in n.asks && n.asks == c.asks[c.ops.next := n.asks[c.ops.next]] && n.open == c.open + {c.ops.next}
            && n.asks[c.ops.next].installation == i
            && (forall r | r in c.asks && Holds(c.asks[r], n.current) :: Holds(c.asks[r], c.current))
            && (forall r | r in c.asks && Holds(c.asks[r], c.current) :: Holds(c.asks[r], n.current))
  {
    hide OpsInv, Counted, Fence, Issue, Take, Acquired, GenerationOk;
    OpsNumbered(c.ops);
    HeldBefore(c, i, key, tags, raw);
    KeptBefore(c, i, key, tags, raw);
  }

  lemma KeptBefore(c: Core, i: nat, key: Key, tags: set<Tag>, raw: bool)
    ensures var n := Acquire(c, i, key, tags, raw);
            && n.open == c.open + {c.ops.next}
            && c.ops.next in n.asks && n.asks == c.asks[c.ops.next := n.asks[c.ops.next]]
            && n.asks[c.ops.next].installation == i
            && (forall r | r in c.asks && Holds(c.asks[r], c.current) :: Holds(c.asks[r], n.current))
  {
  }

  lemma AcquireLinks(w: Work, id: nat, a: Ask, asks: Asks, open: set<nat>, installed: set<nat>)
    requires LinksOk(w, asks, open, installed) && id !in asks
    ensures LinksOk(At(w, id, Asked), asks[id := a], open + {id}, installed)
  {
  }

  lemma AcquireFound(w: Work, id: nat, a: Ask, asks: Asks, current: map<Key, nat>, next: map<Key, nat>, orphans: set<nat>)
    requires LeadersFound(w, asks, current) && FollowersOk(w, asks, orphans) && id !in asks
    requires forall p | p in w.flights :: p in asks
    requires forall r | r in asks && Holds(asks[r], next) :: Holds(asks[r], current)
    requires forall r | r in asks && Holds(asks[r], current) :: Holds(asks[r], next)
    ensures var n := At(w, id, Asked);
            && LeadersFound(n, asks[id := a], next) && FollowersOk(n, asks[id := a], orphans)
            && (Together(w, asks, current, orphans) ==> Together(n, asks[id := a], next, orphans))
  {
    hide Holds;
  }

  lemma SettleLinks(w: Work, id: nat, key: Key, succeeded: bool, asks: Asks, open: set<nat>, installed: set<nat>)
    requires LinksOk(w, asks, open, installed) && id in asks && asks[id].key == key
    ensures LinksOk(Land(w, id, key, succeeded), asks, open - {id}, installed)
  {
    LandFlights(w, id, key, succeeded, asks, open, installed);
    LandMaps(w, id, key, succeeded, asks);
    LandRecords(w, id, key, succeeded);
    hide FlightsOk, MapOk, DemandOk, RecordsOk, Land;
  }

  lemma LandFlights(w: Work, id: nat, key: Key, succeeded: bool, asks: Asks, open: set<nat>, installed: set<nat>)
    requires FlightsOk(w, asks, open, installed)
    ensures FlightsOk(Land(w, id, key, succeeded), asks, open - {id}, installed)
  {
  }

  lemma LandMaps(w: Work, id: nat, key: Key, succeeded: bool, asks: Asks)
    requires MapOk(w.inFlight, false, w.flights, asks) && MapOk(w.rawInFlight, true, w.flights, asks) && DemandOk(w)
    requires id in asks && asks[id].key == key
    ensures var n := Land(w, id, key, succeeded);
            && MapOk(n.inFlight, false, n.flights, asks) && MapOk(n.rawInFlight, true, n.flights, asks) && DemandOk(n)
  {
    LandDemand(w, id, key, succeeded);
    if Leads(w, id) {
      UnlinkOk(w.inFlight, false, w.flights, id, key, Result(w, id, succeeded), asks);
      UnlinkOk(w.rawInFlight, true, w.flights, id, key, Result(w, id, succeeded), asks);
    }
    hide Result, DemandOk, MapOk, Settled, Unlink;
  }

  lemma UnlinkOk(inFlight: map<Key, nat>, raw: bool, flights: map<nat, Flight>, id: nat, key: Key, outcome: Outcome,
                 asks: Asks)
    requires MapOk(inFlight, raw, flights, asks) && id in flights && id in asks && asks[id].key == key
    ensures MapOk(if flights[id].raw == raw then Unlink(inFlight, key, id) else inFlight, raw,
                  flights[id := Settled(flights[id], outcome)], asks)
  {
  }

  lemma LandDemand(w: Work, id: nat, key: Key, succeeded: bool)
    requires DemandOk(w)
    ensures DemandOk(Land(w, id, key, succeeded))
  {
  }

  lemma LandRecords(w: Work, id: nat, key: Key, succeeded: bool)
    requires RecordsOk(w)
    ensures RecordsOk(Land(w, id, key, succeeded))
  {
    var n := Land(w, id, key, succeeded);
    forall p | p in n.flights ensures OwnOutcomes(p, n.flights[p]) {
      assert OwnOutcomes(p, w.flights[p]);
    }
  }

  /** Only the last holder takes its token out, and it takes its flight along. */
  lemma ReleaseHolds(c: Core, id: nat, p: nat)
    requires CoreInv(c) && id in c.open && id in c.asks && c.asks[id].token in c.tokens
    requires p in c.open && p in c.asks && p != id
    ensures Holds(c.asks[p], Release(c, id).current) <==> Holds(c.asks[p], c.current)
  {
    hide OpsInv, AsksOk, CurrentOk, GenerationOk, Fence;
    var a := c.asks[id];
    if c.asks[p].token == a.token {
      assert p in Holders(c.asks, c.open, a.token) && id in Holders(c.asks, c.open, a.token);
      TwoHolders(Holders(c.asks, c.open, a.token), id, p);
      assert c.tokens[a.token].active == |Holders(c.asks, c.open, a.token)|;
    }
    hide Holders;
  }

  lemma TwoHolders(s: set<nat>, x: nat, y: nat)
    requires x in s && y in s && x != y
    ensures |s| >= 2
  {
    assert |{x, y}| == 2 && {x, y} <= s;
    assert s == {x, y} + (s - {x, y});
  }

  lemma SettleWork(s: Cache, id: nat, succeeded: bool)
    requires WorkInv(s) && CoreInv(s.core) && Acts(s, id)
    ensures WorkInv(Settle(s, id, succeeded))
  {
    var c, key := s.core, s.core.asks[id].key;
    forall p | p in s.work.flights && s.work.flights[p].registered && p != id
      ensures p in c.asks && (Holds(c.asks[p], Release(c, id).current) <==> Holds(c.asks[p], c.current))
    {
      assert FlightOk(p, s.work.flights[p], c.asks, c.open, s.work.stages, s.installed);
      ReleaseHolds(c, id, p);
    }
    SettleLinks(s.work, id, key, succeeded, c.asks, c.open, s.installed);
    LandOthers(s.work, id, key, succeeded, c.asks, c.current, Release(c, id).current, s.orphans);
    hide LinksOk, LeadersFound, Together, FollowersOk, Land, CoreInv;
  }

  lemma LandOthers(w: Work, id: nat, key: Key, succeeded: bool, asks: Asks, current: map<Key, nat>, next: map<Key, nat>,
                   orphans: set<nat>)
    requires LeadersFound(w, asks, current) && FollowersOk(w, asks, orphans)
    requires MapOk(w.inFlight, false, w.flights, asks) && MapOk(w.rawInFlight, true, w.flights, asks)
    requires id in asks && asks[id].key == key
    requires forall p | p in w.flights && w.flights[p].registered && p != id ::
               p in asks && (Holds(asks[p], next) <==> Holds(asks[p], current))
    ensures var n := Land(w, id, key, succeeded);
            && LeadersFound(n, asks, next) && FollowersOk(n, asks, orphans)
            && (Together(w, asks, current, orphans) ==> Together(n, asks, next, orphans))
  {
    LandFound(w, id, key, succeeded, asks, current, next);
    LandFollowers(w, id, key, succeeded, asks, orphans);
    UnlinkFound(w.inFlight, false, w.flights, id, key, asks, current, next, orphans);
    UnlinkFound(w.rawInFlight, true, w.flights, id, key, asks, current, next, orphans);
    hide Holds, Result, LeadersFound, FollowersOk, FoundCurrent, MapOk, Unlink, Settled;
  }

  lemma LandFollowers(w: Work, id: nat, key: Key, succeeded: bool, asks: Asks, orphans: set<nat>)
    requires FollowersOk(w, asks, orphans)
    ensures FollowersOk(Land(w, id, key, succeeded), asks, orphans)
  {
    hide Result;
  }

  lemma UnlinkFound(inFlight: map<Key, nat>, raw: bool, flights: map<nat, Flight>, id: nat, key: Key, asks: Asks,
                    current: map<Key, nat>, next: map<Key, nat>, orphans: set<nat>)
    requires MapOk(inFlight, raw, flights, asks) && id in asks && asks[id].key == key
    requires forall p | p in flights && flights[p].registered && p != id ::
               p in asks && (Holds(asks[p], next) <==> Holds(asks[p], current))
    ensures FoundCurrent(inFlight, asks, current, orphans) ==>
              if id in flights && flights[id].registered && flights[id].raw == raw
              then FoundCurrent(Unlink(inFlight, key, id), asks, next, orphans)
              else FoundCurrent(inFlight, asks, next, orphans)
  {
  }

  lemma LandFound(w: Work, id: nat, key: Key, succeeded: bool, asks: Asks, current: map<Key, nat>, next: map<Key, nat>)
    requires LeadersFound(w, asks, current) && id in asks && asks[id].key == key
    requires forall p | p in w.flights && w.flights[p].registered && p != id ::
               p in asks && (Holds(asks[p], next) <==> Holds(asks[p], current))
    ensures LeadersFound(Land(w, id, key, succeeded), asks, next)
  {
    hide Holds, Result;
  }

  // ---------- Invalidation and removal ----------

  lemma ForgetWork(s: Cache, keys: set<Key>)
    requires WorkInv(s)
    ensures WorkInv(s.(core := s.core.(current := s.core.current - keys), work := Forget(s.work, keys)))
  {
  }

  lemma AbandonLinks(w: Work, i: nat, asks: Asks, open: set<nat>, installed: set<nat>)
    requires LinksOk(w, asks, open, installed)
    ensures LinksOk(Abandon(w, asks, i), asks, open, installed - {i})
  {
  }

  lemma UninstallWork(s: Cache, i: nat)
    requires WorkInv(s)
    ensures WorkInv(Uninstall(s, i))
  {
    var left := Abandon(s.work, s.core.asks, i);
    AbandonLinks(s.work, i, s.core.asks, s.core.open, s.installed);
    AbandonFollowers(s.work, i, s.core.asks, s.orphans, s.orphans + Leaders(left));
    NobodyHolds(left, s.core.asks);
    LeadersOrphaned(left, s.core.asks, s.core.open, s.installed - {i}, s.orphans + Leaders(left));
    hide LinksOk, LeadersFound, FollowersOk, Abandon, Leaders, Together;
  }

  lemma NobodyHolds(w: Work, asks: Asks)
    ensures LeadersFound(w, asks, map[])
  {
  }

  lemma LeadersOrphaned(w: Work, asks: Asks, open: set<nat>, installed: set<nat>, orphans: set<nat>)
    requires LinksOk(w, asks, open, installed) && Leaders(w) <= orphans
    ensures Together(w, asks, map[], orphans)
  {
  }

  lemma AbandonFollowers(w: Work, i: nat, asks: Asks, orphans: set<nat>, later: set<nat>)
    requires FollowersOk(w, asks, orphans) && orphans <= later
    ensures FollowersOk(Abandon(w, asks, i), asks, later)
  {
  }

  // ---------- Every step ----------

  lemma RespondWork(s: Cache, id: nat, answer: Answer)
    requires WorkInv(s) && Acts(s, id)
    ensures WorkInv(Respond(s, id, answer))
  {
    CompletedOwn(s);
    var w := Respond(s, id, answer).work;
    RespondShape(s, id, answer);
    hide WorkInv, Respond;
    MarkedWork(s, s.work);
    MarkedWork(s, Mark(s.work, id));
    MarkedWork(s, Complete(s.work, id, EntryOf(s, id)));
    SameWork(s.(work := w), Respond(s, id, answer));
  }

  /** Answering marks the leader or completes its record, and touches no flight. */
  lemma RespondShape(s: Cache, id: nat, answer: Answer)
    requires Acts(s, id)
    ensures var n := Respond(s, id, answer);
            && n.core == s.core && n.installs == s.installs && n.installed == s.installed && n.orphans == s.orphans
            && (n.work == s.work || n.work == Mark(s.work, id) || n.work == Complete(s.work, id, EntryOf(s, id)))
  {
  }

  lemma SameWork(s: Cache, n: Cache)
    requires WorkInv(s) && n.work == s.work && n.core.asks == s.core.asks && n.core.open == s.core.open
    requires n.core.current == s.core.current && n.installs == s.installs && n.installed == s.installed
    requires n.orphans == s.orphans
    ensures WorkInv(n)
  {
  }

  lemma HandleWork(s: Cache, id: nat, verdict: Verdict)
    requires WorkInv(s) && Enabled(s, DoHandle(id, verdict))
    ensures WorkInv(Handle(s, id, verdict))
  {
    var n := Handle(s, id, verdict);
    hide WorkInv, IsCurrent, At, Drop;
    MoveWork(s, id, Handled(s, id, verdict));
    SameWork(s.(work := n.work), n);
  }

  lemma MissWork(s: Cache, id: nat, dedupe: bool)
    requires WorkInv(s) && Enabled(s, DoMiss(id, dedupe))
    ensures WorkInv(Miss(s, id, dedupe))
  {
    hide WorkInv, IsCurrent, At, Join, Lead, Leave, Pending;
    MoveWork(s, id, Sent);
    LeaveWork(s, id, s.work.stages[id].stale);
    if IsCurrent(s.core, s.core.asks[id]) {
      if Pending(s.work, s.core.asks[id]).Some? {
        JoinWork(s, id);
      } else {
        LeadWork(s, id);
      }
    }
  }

  lemma InstallWork(s: Cache)
    requires WorkInv(s)
    ensures WorkInv(Step(s, Install))
  {
  }

  lemma StepWork(s: Cache, e: Event)
    requires WorkInv(s) && CoreInv(s.core) && Enabled(s, e)
    ensures WorkInv(Step(s, e))
  {
    hide WorkInv, CoreInv, Acquire, Release, Finish, Start, Ready, Rewrite, Handle, Respond, Miss, Settle, Uninstall,
         At, Effect,
         Forget, Issue, Effects;
    match e
    case Install => InstallWork(s);
    case DoRequest(i, key, tags, raw) => AcquireWork(s, i, key, tags, raw);
    case DoLook(id) =>
      MoveWork(s, id, Looked(Get(s.disk.store, s.core.asks[id].key)));
      SameWork(s.(work := Look(s, id).work), Look(s, id));
    case DoHandle(id, verdict) => HandleWork(s, id, verdict);
    case DoMiss(id, dedupe) => MissWork(s, id, dedupe);
    case DoLease(id, granted) => MoveWork(s, id, if granted then Asked else Looked(s.work.stages[id].stale));
    case DoWake(id) =>
      MoveWork(s, id, Sent);
      MoveWork(s, id, Over);
    case DoRespond(id, answer) => RespondWork(s, id, answer);
    case DoSettle(id, succeeded) => SettleWork(s, id, succeeded);
    case DoUninstall(i) => UninstallWork(s, i);
    case DoMutate(kind, sync, works, keep) =>
      var keys := Doomed(s.core, kind);
      ForgetWork(s, keys);
      SameWork(s.(core := s.core.(current := s.core.current - keys), work := Forget(s.work, keys)), Step(s, e));
    case DoClear(works) =>
      ForgetAll(s);
      SameWork(s.(core := s.core.(current := map[]), work := s.work.(inFlight := map[], rawInFlight := map[])), Step(s, e));
    case DoBegin(id, works) => SameWork(s, Step(s, e));
    case DoRewrite(id, keep, works) => SameWork(s, Step(s, e));
    case DoFinish(id) => SameWork(s, Step(s, e));
  }

  lemma ForgetAll(s: Cache)
    requires WorkInv(s)
    ensures WorkInv(s.(core := s.core.(current := map[]), work := s.work.(inFlight := map[], rawInFlight := map[])))
  {
  }

  lemma EmptyWork()
    ensures WorkInv(EMPTY)
  {
  }

  // ---------- Sharing tokens ----------

  /** A follower shares the token of the leader it joins exactly when that token is current at that moment. */
  lemma JoinSharesExactly(s: Cache, id: nat)
    requires WorkInv(s) && Acts(s, id) && s.work.stages[id].Missing? && IsCurrent(s.core, s.core.asks[id])
    requires Pending(s.work, s.core.asks[id]).Some?
    ensures var p := Pending(s.work, s.core.asks[id]).value;
            && Miss(s, id, true) == s.(work := Join(s.work, id, p)) && p in s.core.asks
            && (s.core.asks[p].token == s.core.asks[id].token <==> Holds(s.core.asks[p], s.core.current))
  {
    FollowerFinds(s, id);
    hide WorkInv, Join, Pending;
  }

  /** Only a removal beside the leader's own installation makes an orphan, and only of a leader in flight. */
  lemma OrphansArise(s: Cache, e: Event, p: nat)
    requires WorkInv(s) && Enabled(s, e) && p in Step(s, e).orphans && p !in s.orphans
    ensures e.DoUninstall? && Leads(s.work, p) && p in s.core.asks
    ensures s.core.asks[p].installation in s.installed && s.core.asks[p].installation != e.installation
  {
    SameOrphans(s, e);
    hide Enabled, Step;
    OrphanOf(s, e.installation, p);
  }

  lemma OrphanOf(s: Cache, i: nat, p: nat)
    requires WorkInv(s) && p in Leaders(Abandon(s.work, s.core.asks, i))
    ensures Leads(s.work, p) && p in s.core.asks
    ensures s.core.asks[p].installation in s.installed && s.core.asks[p].installation != i
  {
    assert FlightOk(p, s.work.flights[p], s.core.asks, s.core.open, s.work.stages, s.installed);
    hide LeadersFound, Together, FollowersOk, MapOk;
  }

  lemma SameOrphans(s: Cache, e: Event)
    requires Enabled(s, e)
    ensures if e.DoUninstall?
            then Step(s, e).orphans == s.orphans + Leaders(Abandon(s.work, s.core.asks, e.installation))
            else Step(s, e).orphans == s.orphans
  {
    hide Acquire, Release, Finish, Start, Ready, Rewrite, Miss, Land, At, Effect, Forget, Issue, Effects, Abandon, Leaders,
         Outdate, OutdateAll, Drop, Handled, IsCurrent;
    match e
    case DoMiss(id, dedupe) => MissOrphans(s, id, dedupe);
    case DoRespond(id, answer) => RespondShape(s, id, answer);
    case _ =>
  }

  lemma MissOrphans(s: Cache, id: nat, dedupe: bool)
    requires id in s.core.asks && id in s.work.stages && s.work.stages[id].Missing?
    ensures Miss(s, id, dedupe).orphans == s.orphans
  {
  }
}
