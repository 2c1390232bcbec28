/** No stale hit: a record with which a request is answered from the store is no older than any applied mutation of its
    key, or of a tag that the request names and the record carries. */
module CacheHits {
  import opened Collections
  import opened CacheOperations
  import opened CacheProtocol
  import opened CacheFence
  import opened CacheFreshness
  import opened CacheFlights
  import opened CacheGuarantees
  import opened CacheReturns
  import opened CacheAnswers

  /** The record that a request has read and not decided on. */
  function HeldRecord(stage: Stage): Option<Entry> {
    match stage
    case Looked(found) => found
    case Missing(stale) => stale
    case _ => None
  }

  /** The record is no older than an applied operation that concerns it; a `clear` does not reach what it remembers. */
  ghost predicate NoOlder(e: Entry, key: Key, i: nat, kind: Kind, asks: map<nat, Ask>) {
    match e.origin
    case ByRequest(q) => q in asks && asks[q].key == key && (Concerns(kind, key, asks[q].tags) ==> i < q)
    case Explicit(q) => Concerns(kind, key, e.tags) ==> i <= q || (kind.Clear? && q in kind.returning)
  }

  /** So it is with the record a request holds, for all operations that concern the request, while its token is
      current. */
  ghost predicate HitOk(s: Cache, id: nat, e: Entry) {
    id in s.core.asks && Holds(s.core.asks[id], s.core.current) ==>
      forall i | i in s.disk.applied && i in s.core.ops.ops
                 && Concerns(s.core.ops.ops[i].kind, s.core.asks[id].key, s.core.asks[id].tags) ::
        NoOlder(e, s.core.asks[id].key, i, s.core.ops.ops[i].kind, s.core.asks)
  }

  ghost predicate HitsOk(s: Cache) {
    forall id | id in s.work.stages && id in s.core.asks && HeldRecord(s.work.stages[id]).Some? ::
      HitOk(s, id, HeldRecord(s.work.stages[id]).value)
  }

  // ---------- One step ----------

  /** A step moves a held record along with its request, or lets the request read the store. */
  ghost predicate HeldMoves(s: Cache, n: Cache) {
    && n.work.stages.Keys <= n.core.asks.Keys
    && forall id | id in n.work.stages && HeldRecord(n.work.stages[id]).Some? ::
         && id in s.core.asks
         && ((id in s.work.stages && HeldRecord(s.work.stages[id]) == HeldRecord(n.work.stages[id]))
             || (n.disk.applied == s.disk.applied && s.core.asks[id].key in s.disk.store
                 && HeldRecord(n.work.stages[id]) == Some(s.disk.store[s.core.asks[id].key])))
  }

  /** Only a new operation, or an unfinished mutation, gets applied. */
  ghost predicate AppliedMoves(s: Cache, n: Cache) {
    forall i | i in n.disk.applied && i !in s.disk.applied ::
      i == s.core.ops.next || (i in s.core.ops.ops && Mutates(s.core.ops.ops[i].kind) && !s.core.ops.ops[i].phase.Done?)
  }

  ghost predicate AsksStay(s: Cache, n: Cache) {
    forall r | r in s.core.asks :: r in n.core.asks && n.core.asks[r] == s.core.asks[r]
  }

  lemma StepAsks(s: Cache, e: Event)
    requires CoreInv(s.core) && Enabled(s, e)
    ensures AsksStay(s, Step(s, e))
  {
    hide CoreInv, Issue, Take, Finish, Start, Ready, Effect, Effects, Rewrite, At, Doomed, Handle, Miss, Respond, Release;
    match e
    case DoRequest(i, key, tags, raw) => FreshAsk(s.core);
    case DoHandle(id, verdict) => HandleCore(s, id, verdict);
    case DoMiss(id, dedupe) => MissCore(s, id, dedupe);
    case DoRespond(id, answer) => RespondCore(s, id, answer);
    case DoSettle(id, _) => ReleaseSame(s.core, id);
    case _ =>
  }

  lemma StepApplied(s: Cache, e: Event)
    requires Enabled(s, e)
    ensures AppliedMoves(s, Step(s, e))
  {
    hide Issue, Take, Finish, Start, Acquire, Outdate, OutdateAll, Release, Land, Abandon, Forget, At, Join, Lead,
         Leave, Changed, IsCurrent, EntryOf, Returning;
  }

  lemma StepHeld(s: Cache, e: Event)
    requires CoreInv(s.core) && Enabled(s, e) && s.work.stages.Keys <= s.core.asks.Keys
    ensures HeldMoves(s, Step(s, e))
  {
    hide CoreInv, Enabled, Step, HeldMoves;
    StepAsks(s, e);
    if e.DoRequest? || e.DoLook? || e.DoLease? || e.DoWake? || e.DoHandle? || e.DoMiss? {
      MovedHeld(s, e);
    } else {
      SameStages(s, e);
      SameHeld(s, Step(s, e));
    }
  }

  lemma SameHeld(s: Cache, n: Cache)
    requires n.work.stages == s.work.stages && s.work.stages.Keys <= s.core.asks.Keys && AsksStay(s, n)
    ensures HeldMoves(s, n)
  {
  }

  lemma MovedHeld(s: Cache, e: Event)
    requires Enabled(s, e) && s.work.stages.Keys <= s.core.asks.Keys && AsksStay(s, Step(s, e))
    requires e.DoRequest? || e.DoLook? || e.DoLease? || e.DoWake? || e.DoHandle? || e.DoMiss?
    ensures HeldMoves(s, Step(s, e))
  {
    hide HeldMoves, Acquire, Handle, Miss, IsCurrent, Ready, Start;
    match e
    case DoRequest(i, key, tags, raw) => RequestHeld(s, i, key, tags, raw);
    case DoLook(id) => OneHeld(s, Step(s, e), id, Looked(Get(s.disk.store, s.core.asks[id].key)));
    case DoHandle(id, verdict) =>
      HandleStages(s, id, verdict);
      OneHeld(s, Step(s, e), id, Handled(s, id, verdict));
    case DoMiss(id, dedupe) => MissHeld(s, id, dedupe);
    case DoLease(id, granted) => OneHeld(s, Step(s, e), id, if granted then Asked else Looked(s.work.stages[id].stale));
    case DoWake(id) => OneHeld(s, Step(s, e), id, Step(s, e).work.stages[id]);
  }

  lemma RequestHeld(s: Cache, i: nat, key: Key, tags: set<Tag>, raw: bool)
    requires s.work.stages.Keys <= s.core.asks.Keys && AsksStay(s, Request(s, i, key, tags, raw))
    ensures HeldMoves(s, Request(s, i, key, tags, raw))
  {
    hide Issue, Take, Acquired;
  }

  lemma MissHeld(s: Cache, id: nat, dedupe: bool)
    requires Acts(s, id) && s.work.stages[id].Missing? && s.work.stages.Keys <= s.core.asks.Keys
    ensures HeldMoves(s, Miss(s, id, dedupe))
  {
    MissStage(s, id, dedupe);
    MissCore(s, id, dedupe);
    hide Miss;
  }

  lemma MissStage(s: Cache, id: nat, dedupe: bool)
    requires Acts(s, id) && s.work.stages[id].Missing?
    ensures var stages := Miss(s, id, dedupe).work.stages;
            stages.Keys == s.work.stages.Keys && HeldRecord(stages[id]) == None
            && forall k | k in stages && k != id :: stages[k] == s.work.stages[k]
  {
    hide IsCurrent, Pending, Demand;
  }

  /** One request goes on, with what it held, with what it finds, or with nothing. */
  lemma OneHeld(s: Cache, n: Cache, id: nat, stage: Stage)
    requires id in s.core.asks && id in s.work.stages && n.work.stages == s.work.stages[id := stage]
    requires n.core.asks.Keys == s.core.asks.Keys && s.work.stages.Keys <= s.core.asks.Keys
    requires || HeldRecord(stage) == None || HeldRecord(stage) == HeldRecord(s.work.stages[id])
             || (n.disk.applied == s.disk.applied && HeldRecord(stage) == Get(s.disk.store, s.core.asks[id].key))
    ensures HeldMoves(s, n)
  {
  }

  // ---------- Every step keeps hits fresh ----------

  lemma StepHits(s: Cache, e: Event)
    requires CacheInv(s) && Enabled(s, e) && HitsOk(s) && s.work.stages.Keys <= s.core.asks.Keys
    ensures HitsOk(Step(s, e)) && Step(s, e).work.stages.Keys <= Step(s, e).core.asks.Keys
  {
    hide CacheInv, Enabled, Step, HitOk;
    CoreOf(s);
    StagesOf(s);
    hide CoreInv, DiskInv, StagesOk;
    StepHeld(s, e);
    StepApplied(s, e);
    StepAsks(s, e);
    StepExtends(s, e);
    StepCache(s, e);
    CoreOf(Step(s, e));
    var n := Step(s, e);
    forall id | id in n.work.stages && HeldRecord(n.work.stages[id]).Some?
      ensures HitOk(n, id, HeldRecord(n.work.stages[id]).value)
    {
      if Holds(n.core.asks[id], n.core.current) {
        if !Holds(s.core.asks[id], s.core.current) {
          DeadStaysDead(s, e, id);
        } else if id in s.work.stages && HeldRecord(s.work.stages[id]) == HeldRecord(n.work.stages[id]) {
          StillFresh(s, n, id, HeldRecord(n.work.stages[id]).value);
        } else {
          FoundFresh(s, n, id);
        }
      } else {
        NotHeld(n, id, HeldRecord(n.work.stages[id]).value);
      }
    }
  }

  lemma StagesOf(s: Cache)
    requires CacheInv(s)
    ensures StagesOk(s.work.stages, s.core.ops)
  {
  }

  lemma NotHeld(n: Cache, id: nat, e: Entry)
    requires id in n.core.asks && !Holds(n.core.asks[id], n.core.current)
    ensures HitOk(n, id, e)
  {
  }

  /** Nothing that concerns a request with a current token is still to be applied once it has read. */
  lemma NothingPending(s: Cache, n: Cache, id: nat, i: nat)
    requires CoreInv(s.core) && CoreInv(n.core) && StagesOk(s.work.stages, s.core.ops) && AppliedMoves(s, n)
    requires AsksStay(s, n) && Extends(s.core.ops, n.core.ops)
    requires id in s.core.asks && id in s.work.stages && !s.work.stages[id].Asked?
    requires Holds(n.core.asks[id], n.core.current) && i in n.disk.applied && i in n.core.ops.ops
    requires Concerns(n.core.ops.ops[i].kind, n.core.asks[id].key, n.core.asks[id].tags)
    ensures i in s.disk.applied && i in s.core.ops.ops
  {
    var a := s.core.asks[id];
    assert AskOk(id, a, s.core.tokens, s.core.ops);
    assert i < id;
    assert id < s.core.ops.next by { OpsNumbered(s.core.ops); }
    assert i in s.core.ops.ops;
    ConcernedRead(n.core.ops.ops[i].kind, a.key, a.tags);
    hide MustFollow, Concerns, Tracked, WaitsEnough, CurrentOk, GenerationOk, Counted, Numbered;
  }

  lemma StillFresh(s: Cache, n: Cache, id: nat, e: Entry)
    requires CoreInv(s.core) && CoreInv(n.core) && StagesOk(s.work.stages, s.core.ops) && AppliedMoves(s, n)
    requires AsksStay(s, n) && Extends(s.core.ops, n.core.ops)
    requires id in s.core.asks && id in s.work.stages && HeldRecord(s.work.stages[id]).Some?
    requires Holds(s.core.asks[id], s.core.current) && Holds(n.core.asks[id], n.core.current) && HitOk(s, id, e)
    ensures HitOk(n, id, e)
  {
    hide CoreInv, StagesOk, AppliedMoves, Concerns;
    forall i | i in n.disk.applied && i in n.core.ops.ops
               && Concerns(n.core.ops.ops[i].kind, n.core.asks[id].key, n.core.asks[id].tags)
      ensures NoOlder(e, n.core.asks[id].key, i, n.core.ops.ops[i].kind, n.core.asks)
    {
      NothingPending(s, n, id, i);
      assert NoOlder(e, s.core.asks[id].key, i, s.core.ops.ops[i].kind, s.core.asks);
    }
  }

  lemma FoundFresh(s: Cache, n: Cache, id: nat)
    requires DiskInv(s.disk, s.core.asks, s.core.ops) && AsksStay(s, n) && Extends(s.core.ops, n.core.ops)
    requires AppliedOk(s.disk.applied, s.core.ops)
    requires id in s.core.asks && n.disk.applied == s.disk.applied && s.core.asks[id].key in s.disk.store
    ensures HitOk(n, id, s.disk.store[s.core.asks[id].key])
  {
    var key := s.core.asks[id].key;
    assert EntryOk(key, s.disk.store[key], s.core.asks, s.disk.applied, s.core.ops);
    hide ClearsOk, ClosedOk, WritesOk, Concerns;
  }

  // ---------- Every run ----------

  lemma {:induction false} RunHits(s: Cache, events: seq<Event>)
    requires CacheInv(s) && Allowed(s, events) && HitsOk(s) && s.work.stages.Keys <= s.core.asks.Keys
    ensures HitsOk(Run(s, events))
    decreases |events|
  {
    hide CacheInv, Enabled, Step, HitsOk;
    if events != [] {
      StepCache(s, events[0]);
      StepHits(s, events[0]);
      RunHits(Step(s, events[0]), events[1..]);
    }
  }

  /** In every run, when a request is answered with the record it has found, every applied mutation of its key, and every
      applied invalidation of a tag that it names and the record carries, was issued before the record came into being:
      before the request that fetched it, or before the operation that made it. */
  lemma NoStaleHit(events: seq<Event>, id: nat, i: nat)
    requires Allowed(EMPTY, events)
    requires var s := Run(EMPTY, events);
             && Enabled(s, DoHandle(id, Verdict.Fresh)) && Step(s, DoHandle(id, Verdict.Fresh)).work.stages[id].Over?
             && i in s.disk.applied && i in s.core.ops.ops
             && Concerns(s.core.ops.ops[i].kind, s.core.asks[id].key, s.core.asks[id].tags)
    ensures var s := Run(EMPTY, events);
            && s.work.stages[id].found.Some?
            && var e, kind, key := s.work.stages[id].found.value, s.core.ops.ops[i].kind, s.core.asks[id].key;
               match e.origin
               case ByRequest(q) =>
                 q in s.core.asks && s.core.asks[q].key == key && (Concerns(kind, key, s.core.asks[q].tags) ==> i < q)
               case Explicit(q) => Concerns(kind, key, e.tags) ==> i <= q || (kind.Clear? && q in kind.returning)
  {
    hide CacheInv, Run, Allowed, HitsOk, Step, Enabled, Concerns;
    EmptyInv();
    EmptyHits();
    RunFromEmpty(events);
    RunHits(EMPTY, events);
    LookedAt(Run(EMPTY, events), id);
    HitFresh(Run(EMPTY, events), id, i);
  }

  lemma LookedAt(s: Cache, id: nat)
    requires Enabled(s, DoHandle(id, Verdict.Fresh))
    ensures id in s.core.asks && id in s.work.stages && s.work.stages[id].Looked?
  {
  }

  lemma HitFresh(s: Cache, id: nat, i: nat)
    requires CacheInv(s) && HitsOk(s) && Enabled(s, DoHandle(id, Verdict.Fresh))
    requires id in s.core.asks && id in s.work.stages && s.work.stages[id].Looked?
    requires Step(s, DoHandle(id, Verdict.Fresh)).work.stages[id].Over?
    requires i in s.disk.applied && i in s.core.ops.ops
    requires Concerns(s.core.ops.ops[i].kind, s.core.asks[id].key, s.core.asks[id].tags)
    ensures s.work.stages[id].found.Some?
    ensures NoOlder(s.work.stages[id].found.value, s.core.asks[id].key, i, s.core.ops.ops[i].kind, s.core.asks)
  {
    hide CacheInv, Step, Enabled, Concerns, NoOlder;
    AnsweredFromStore(s, id, Verdict.Fresh);
    assert HitOk(s, id, s.work.stages[id].found.value);
  }

  lemma EmptyHits()
    ensures HitsOk(EMPTY) && EMPTY.work.stages.Keys <= EMPTY.core.asks.Keys
  {
  }
}
