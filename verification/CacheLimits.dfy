/** Where the guarantees of the cache protocol end: each lemma starts from any reachable state that fits. */
module CacheLimits {
  import opened Collections
  import opened CacheOperations
  import opened CacheProtocol
  import opened CacheFence
  import opened CacheFreshness
  import opened CacheFlights
  import opened CacheGuarantees
  import opened CacheReturns

  /** A tag that reaches a token only after its invalidation does not fence requests that already hold the token:
      their older answer is still stored, under that tag. */
  lemma LateTagSlipsThrough(s: Cache, r: nat, t: Tag, i: nat, sync: bool)
    requires CacheInv(s) && Acts(s, r) && s.work.stages[r].Sent? && IsCurrent(s.core, s.core.asks[r])
    requires Writes(s.work, r) && i in s.installed
    requires t !in s.core.tokens[s.core.asks[r].token].tags && Waits(s.core.ops, Invalidate({t})) == {}
    ensures LateTag(s, r, t, i, sync)
  {
    hide CacheInv, Step, CoreInv, Enabled, Waits;
    var e1, e2 := DoMutate(Invalidate({t}), sync, true, true), DoRequest(i, s.core.asks[r].key, {t}, false);
    CoreOf(s);
    InvalidationPasses(s, r, t, sync);
    StepCache(s, e1);
    CoreOf(Step(s, e1));
    TagTaken(Step(s, e1), r, t, i);
    OldAnswerStored(Step(Step(s, e1), e2), r, t);
  }

  /** After the invalidation, a request that adds the tag, and the older request's answer: the answer is in the store
      under the tag, and the invalidation, younger than its request, has been applied. */
  ghost predicate LateTag(s: Cache, r: nat, t: Tag, i: nat, sync: bool)
    requires r in s.core.asks
  {
    var e1, e2, key := DoMutate(Invalidate({t}), sync, true, true), DoRequest(i, s.core.asks[r].key, {t}, false),
                       s.core.asks[r].key;
    && Enabled(s, e1) && Enabled(Step(s, e1), e2) && Enabled(Step(Step(s, e1), e2), DoRespond(r, Storable))
    && var n := Step(Step(Step(s, e1), e2), DoRespond(r, Storable));
       && key in n.disk.store && n.disk.store[key].origin == ByRequest(r) && t in n.disk.store[key].tags
       && s.core.ops.next in n.disk.applied && s.core.ops.next in n.core.ops.ops
       && n.core.ops.ops[s.core.ops.next].kind == Invalidate({t}) && r < s.core.ops.next
  }

  /** No raw leader is to write in its place. */
  predicate Writes(w: Work, r: nat) {
    !(Leads(w, r) && w.flights[r].rawDemanded)
  }

  /** What matters of a state for the rest of the run. */
  ghost predicate Poised(s: Cache, r: nat, a: Ask, op: nat, t: Tag) {
    && Acts(s, r) && s.work.stages[r].Sent? && s.core.asks[r] == a && IsCurrent(s.core, a) && Writes(s.work, r)
    && r < op && op < s.core.ops.next && op in s.core.ops.ops && s.core.ops.ops[op].kind == Invalidate({t})
    && op in s.disk.applied
  }

  lemma InvalidationPasses(s: Cache, r: nat, t: Tag, sync: bool)
    requires CoreInv(s.core) && Acts(s, r) && s.work.stages[r].Sent? && IsCurrent(s.core, s.core.asks[r])
    requires Writes(s.work, r) && Waits(s.core.ops, Invalidate({t})) == {}
    requires t !in s.core.tokens[s.core.asks[r].token].tags
    ensures var e := DoMutate(Invalidate({t}), sync, true, true);
            && Enabled(s, e) && Poised(Step(s, e), r, s.core.asks[r], s.core.ops.next, t)
            && Step(s, e).installed == s.installed
  {
    hide CoreInv, Waits, Outdate, Forget, Effects, Holds;
    StillHolds(s.core, r, t, sync);
    OutdateKeeps(s.core, r, t, sync);
    ForgetKeeps(s.work, Doomed(s.core, Invalidate({t})));
    InvalidationApplied(s.disk, s.core.ops.next, t, sync);
  }

  lemma OutdateKeeps(c: Core, r: nat, t: Tag, sync: bool)
    requires CoreInv(c) && r in c.ops.ops
    ensures var m := Outdate(c, Invalidate({t}), sync);
            && m.asks == c.asks && m.open == c.open && m.tokens == c.tokens && r in m.ops.ops
  {
    TrackOps(c.ops, Invalidate({t}), sync);
    hide CoreInv, Issue;
  }

  lemma ForgetKeeps(w: Work, keys: set<Key>)
    ensures Forget(w, keys).stages == w.stages && Forget(w, keys).flights == w.flights
  {
  }

  lemma InvalidationApplied(d: Disk, id: nat, t: Tag, sync: bool)
    ensures id in Effects(d, id, Invalidate({t}), sync, true, true).applied
  {
  }

  lemma TagTaken(m: Cache, r: nat, t: Tag, i: nat)
    requires CoreInv(m.core) && r in m.core.asks && i in m.installed
    ensures var e, a := DoRequest(i, m.core.asks[r].key, {t}, false), m.core.asks[r];
            && Enabled(m, e)
            && forall op | Poised(m, r, a, op, t) ::
                 Poised(Step(m, e), r, a, op, t) && t in Step(m, e).core.tokens[a.token].tags
  {
    var a := m.core.asks[r];
    hide CoreInv, Acquire, Poised, Step;
    TagAcquired(m.core, r, t, i);
    forall op | Poised(m, r, a, op, t)
      ensures Poised(Step(m, DoRequest(i, a.key, {t}, false)), r, a, op, t)
      ensures t in Step(m, DoRequest(i, a.key, {t}, false)).core.tokens[a.token].tags
    {
      StillPoised(m, r, t, i, op);
    }
  }

  lemma StillPoised(m: Cache, r: nat, t: Tag, i: nat, op: nat)
    requires CoreInv(m.core) && r in m.core.asks && i in m.installed && Poised(m, r, m.core.asks[r], op, t)
    ensures var e, a := DoRequest(i, m.core.asks[r].key, {t}, false), m.core.asks[r];
            && Poised(Step(m, e), r, a, op, t)
            && a.token in Step(m, e).core.tokens && t in Step(m, e).core.tokens[a.token].tags
  {
    hide CoreInv, Acquire;
    TagAcquired(m.core, r, t, i);
  }

  lemma TagAcquired(c: Core, r: nat, t: Tag, i: nat)
    requires CoreInv(c) && r in c.asks
    ensures var a, n := c.asks[r], Acquire(c, i, c.asks[r].key, {t}, false);
            && r in n.asks && n.asks[r] == a && c.open <= n.open && c.ops.next <= n.ops.next
            && (forall op | op in c.ops.ops :: op in n.ops.ops && n.ops.ops[op].kind == c.ops.ops[op].kind)
            && (a.token in c.tokens ==> a.token in n.tokens)
            && (IsCurrent(c, a) ==> IsCurrent(n, a) && a.token in n.tokens && t in n.tokens[a.token].tags)
  {
    hide CoreInv, Issue, Take, OpsInv, Numbered;
    var a := c.asks[r];
    TakenTag(c.tokens, a.token, a.key, t);
    TrackOps(c.ops, Read(a.key, {t}), false);
    FreshAsk(c);
    TakeKeeps(c.tokens, Acquired(c, a.key), a.key, {t});
  }

  lemma TakeKeeps(tokens: map<nat, Token>, token: nat, key: Key, tags: set<Tag>)
    ensures forall t | t in tokens :: t in Take(tokens, token, key, tags)
  {
  }

  lemma OldAnswerStored(k: Cache, r: nat, t: Tag)
    requires Acts(k, r) && k.work.stages[r].Sent? && t in k.core.tokens[k.core.asks[r].token].tags
    requires IsCurrent(k.core, k.core.asks[r]) && Writes(k.work, r)
    ensures Enabled(k, DoRespond(r, Storable))
    ensures var n, key := Step(k, DoRespond(r, Storable)), k.core.asks[r].key;
            && key in n.disk.store && n.disk.store[key].origin == ByRequest(r) && t in n.disk.store[key].tags
            && n.disk.applied == k.disk.applied && n.core == k.core
  {
  }

  lemma TakenTag(tokens: map<nat, Token>, token: nat, key: Key, t: Tag)
    ensures token in Take(tokens, token, key, {t}) && t in Take(tokens, token, key, {t})[token].tags
  {
  }

  lemma HolderOk(c: Core, r: nat)
    requires CoreInv(c) && r in c.asks
    ensures AskOk(r, c.asks[r], c.tokens, c.ops)
  {
  }

  lemma StillHolds(c: Core, r: nat, t: Tag, sync: bool)
    requires CoreInv(c) && r in c.asks && Holds(c.asks[r], c.current)
    requires c.asks[r].token in c.tokens && t !in c.tokens[c.asks[r].token].tags
    ensures var m := Outdate(c, Invalidate({t}), sync);
            && Holds(c.asks[r], m.current) && m.tokens == c.tokens && m.asks == c.asks && m.generation == c.generation
            && c.ops.next in m.ops.ops && m.ops.ops[c.ops.next].kind == Invalidate({t})
            && r < c.ops.next < m.ops.next
  {
  }

  /** A `set` that is ready to start when `clear` runs outlives it. */
  lemma PendingSetOutlivesClear(s: Cache, q: nat)
    requires CacheInv(s) && Ready(s.core.ops, q) && s.core.ops.ops[q].kind.Store?
    ensures var c := Clearing(s, true);
            && q < s.core.ops.next && s.core.ops.next in c.disk.applied && c.disk.store == map[]
            && Ready(c.core.ops, q)
            && var key := s.core.ops.ops[q].kind.key;
               var n := Begin(c, q, true);
               key in n.disk.store && n.disk.store[key].origin == Explicit(q)
  {
    hide CacheInv, CoreInv, DiskInv, Issue, Returning, OpsInv, Start, Ready;
    CoreOf(s);
    CoreNumbered(s.core);
    ReadyStays(s.core.ops, Clear(Returning(s.core.ops, s.disk.reading)), q);
  }

  lemma ReadyStays(o: Ops, kind: Kind, q: nat)
    requires Numbered(o) && Ready(o, q)
    ensures var n := Issue(o, kind, true); Ready(n, q) && n.ops[q] == o.ops[q] && q < o.next
  {
  }

  /** Removing one installation beside another forgets the token of a leader that stays: the next request for its
      key takes another token and would still follow it. */
  lemma RemovalSplitsTokens(s: Cache, p: nat, j: nat)
    requires CacheInv(s) && Acts(s, p) && Leads(s.work, p) && !s.work.flights[p].raw && Holds(s.core.asks[p], s.core.current)
    requires j in s.installed && j != s.core.asks[p].installation
    ensures var a := s.core.asks[p];
            var n := Request(Uninstall(s, j), a.installation, a.key, a.tags, false);
            && a.installation in Uninstall(s, j).installed && s.core.ops.next in n.core.asks
            && n.core.asks[s.core.ops.next].token != a.token
            && Pending(n.work, n.core.asks[s.core.ops.next]) == Some(p)
  {
    hide CoreInv, DiskInv, WorkInv, StagesOk, Issue, Take, Abandon, Pending;
    HolderOk(s.core, p);
    CoreNumbered(s.core);
    LeaderFound(s, p);
    StillPending(s.work, s.core.asks, p, j);
    PendingByKey(Abandon(s.work, s.core.asks, j), s.core.ops.next, s.core.asks[p].key, p);
  }

  lemma StillPending(w: Work, asks: Asks, p: nat, j: nat)
    requires p in asks && asks[p].key in w.inFlight && w.inFlight[asks[p].key] == p && asks[p].installation != j
    ensures asks[p].key in Abandon(w, asks, j).inFlight && Abandon(w, asks, j).inFlight[asks[p].key] == p
  {
  }

  lemma PendingByKey(w: Work, id: nat, key: Key, p: nat)
    requires key in w.inFlight && w.inFlight[key] == p
    ensures forall a: Ask | a.key == key && !a.raw :: Pending(At(w, id, Asked), a) == Some(p)
  {
  }

  lemma LeaderFound(s: Cache, p: nat)
    requires WorkInv(s) && Leads(s.work, p) && !s.work.flights[p].raw
    requires p in s.core.asks && Holds(s.core.asks[p], s.core.current)
    ensures s.core.asks[p].key in s.work.inFlight && s.work.inFlight[s.core.asks[p].key] == p
  {
  }

  // ---------- A concrete run ----------

  /** A request without tags has been sent; nothing else is there. */
  const SENT := Cache(
    Core(Ops(1, map[0 := Op(Read(0, {}), {}, Running)], map[], map[]), 0, map[0 := 0], map[0 := Token(0, 1, {})],
         map[0 := Ask(0, 0, {}, false, 0, 0)], {0}),
    Disk(map[], map[], {}, {}), Work(map[0 := Sent], map[], map[], {}, map[], map[], map[]), 1, {0}, {})

  lemma SentReached()
    ensures var events := [Install, DoRequest(0, 0, {}, false), DoLook(0), DoHandle(0, Unusable), DoMiss(0, false)];
            Allowed(EMPTY, events) && Run(EMPTY, events) == SENT
  {
    var s1 := Step(EMPTY, Install);
    RunOne(EMPTY, Install);
    assert s1 == EMPTY.(installs := 1, installed := {0});
    RequestFirst(s1);
    var s2 := Step(s1, DoRequest(0, 0, {}, false));
    RunOne(s1, DoRequest(0, 0, {}, false));
    RunConcat(EMPTY, [Install], [DoRequest(0, 0, {}, false)]);
    OnToNetwork(s2);
    RunConcat(EMPTY, [Install] + [DoRequest(0, 0, {}, false)], [DoLook(0), DoHandle(0, Unusable), DoMiss(0, false)]);
    assert [Install] + [DoRequest(0, 0, {}, false)] + [DoLook(0), DoHandle(0, Unusable), DoMiss(0, false)]
        == [Install, DoRequest(0, 0, {}, false), DoLook(0), DoHandle(0, Unusable), DoMiss(0, false)];
    hide Step, Enabled, Run, Allowed;
  }

  lemma RequestFirst(s: Cache)
    requires s == EMPTY.(installs := 1, installed := {0})
    ensures Enabled(s, DoRequest(0, 0, {}, false))
    ensures Step(s, DoRequest(0, 0, {}, false)) == SENT.(work := SENT.work.(stages := map[0 := Asked]))
  {
    assert Waits(s.core.ops, Read(0, {})) == {};
  }

  lemma OnToNetwork(s: Cache)
    requires s == SENT.(work := SENT.work.(stages := map[0 := Asked]))
    ensures var events := [DoLook(0), DoHandle(0, Unusable), DoMiss(0, false)];
            Allowed(s, events) && Run(s, events) == SENT
  {
    var s1 := Step(s, DoLook(0));
    assert s1 == SENT.(work := SENT.work.(stages := map[0 := Looked(None)]));
    RunOne(s, DoLook(0));
    var s2 := Step(s1, DoHandle(0, Unusable));
    assert s2 == SENT.(work := SENT.work.(stages := map[0 := Missing(None)]));
    RunOne(s1, DoHandle(0, Unusable));
    assert Step(s2, DoMiss(0, false)) == SENT;
    RunOne(s2, DoMiss(0, false));
    hide Step, Enabled;
    RunConcat(s, [DoLook(0)], [DoHandle(0, Unusable)]);
    RunConcat(s, [DoLook(0)] + [DoHandle(0, Unusable)], [DoMiss(0, false)]);
    assert [DoLook(0)] + [DoHandle(0, Unusable)] + [DoMiss(0, false)]
        == [DoLook(0), DoHandle(0, Unusable), DoMiss(0, false)];
  }

  /** From the empty state: a request without tags is sent, tag 7 is invalidated, another request for the same key
      carries tag 7, and the first one's answer is stored under it. */
  lemma LateTagExample()
    ensures var events := [Install, DoRequest(0, 0, {}, false), DoLook(0), DoHandle(0, Unusable), DoMiss(0, false)];
            Allowed(EMPTY, events) && Acts(Run(EMPTY, events), 0) && LateTag(Run(EMPTY, events), 0, 7, 0, false)
  {
    hide CacheInv, Run, Allowed, LateTag, Waits, Acts, IsCurrent;
    SentReached();
    RunFromEmpty([Install, DoRequest(0, 0, {}, false), DoLook(0), DoHandle(0, Unusable), DoMiss(0, false)]);
    SentFits();
    LateTagSlipsThrough(SENT, 0, 7, 0, false);
  }

  lemma SentFits()
    ensures Acts(SENT, 0) && SENT.work.stages[0].Sent? && IsCurrent(SENT.core, SENT.core.asks[0])
    ensures Writes(SENT.work, 0) && 0 in SENT.installed
    ensures 7 !in SENT.core.tokens[SENT.core.asks[0].token].tags && Waits(SENT.core.ops, Invalidate({7})) == {}
  {
  }
}
