/** What every run of the cache protocol guarantees, and where the guarantees end. */
module CacheGuarantees {
  import opened Collections
  import opened CacheOperations
  import opened CacheProtocol
  import opened CacheFence
  import opened CacheFreshness
  import opened CacheFlights

  // ---------- The invariant of a run ----------

  /** What has been read and not written back belongs to a running `update`. */
  ghost predicate ReadingOk(reading: map<nat, Option<Entry>>, o: Ops) {
    forall i | i in reading :: i in o.ops && o.ops[i].kind.Update? && o.ops[i].phase.Running?
  }

  ghost predicate CacheInv(s: Cache) {
    && CoreInv(s.core) && DiskInv(s.disk, s.core.asks, s.core.ops) && WorkInv(s) && StagesOk(s.work.stages, s.core.ops)
    && ReadingOk(s.disk.reading, s.core.ops)
  }

  lemma StepReading(s: Cache, e: Event)
    requires CoreInv(s.core) && ReadingOk(s.disk.reading, s.core.ops) && Enabled(s, e)
    ensures ReadingOk(Step(s, e).disk.reading, Step(s, e).core.ops)
  {
    hide CoreInv, Acquire, Release, Start, Finish, Ready, Issue, Effects, Handle, Miss, Respond, Rewrite, Effect, Outdate,
         OutdateAll, ReadingOk;
    match e
    case DoRequest(i, key, tags, raw) =>
      CoreNumbered(s.core);
      AcquireOps(s.core, i, key, tags, raw);
      IssueReading(s.disk.reading, s.core.ops, Read(key, tags), false);
    case DoLook(id) =>
      if s.core.ops.ops[id].phase.Waiting? {
        StartReading(s.disk.reading, s.core.ops, id);
      }
    case DoHandle(id, verdict) => HandleReading(s, id, verdict);
    case DoMiss(id, dedupe) => MissReading(s, id, dedupe);
    case DoRespond(id, answer) => RespondReading(s, id, answer);
    case DoSettle(id, _) => ReleaseSame(s.core, id);
    case DoMutate(kind, sync, works, keep) => MutateReading(s, kind, sync, works, keep);
    case DoClear(works) => ClearReading(s, works);
    case DoBegin(id, works) => BeginReading(s, id, works);
    case DoRewrite(id, keep, works) => RewriteReading(s.disk, s.core.ops, id, s.core.ops.ops[id].kind.key, keep, works);
    case DoFinish(id) => FinishReading(s.disk.reading, s.core.ops, id);
    case _ =>
  }

  lemma AcquireOps(c: Core, i: nat, key: Key, tags: set<Tag>, raw: bool)
    ensures Acquire(c, i, key, tags, raw).ops == Issue(c.ops, Read(key, tags), false)
  {
  }

  lemma IssueReading(reading: map<nat, Option<Entry>>, o: Ops, kind: Kind, sync: bool)
    requires ReadingOk(reading, o) && Numbered(o)
    ensures ReadingOk(reading, Issue(o, kind, sync))
  {
    TrackOps(o, kind, sync);
    hide Issue;
  }

  lemma StartReading(reading: map<nat, Option<Entry>>, o: Ops, id: nat)
    requires ReadingOk(reading, o) && Ready(o, id)
    ensures ReadingOk(reading, Start(o, id))
  {
  }

  lemma FinishReading(reading: map<nat, Option<Entry>>, o: Ops, id: nat)
    requires ReadingOk(reading, o) && id in o.ops && id !in reading
    ensures ReadingOk(reading, Finish(o, id))
  {
  }

  lemma HandleReading(s: Cache, id: nat, verdict: Verdict)
    requires id in s.core.asks && id in s.work.stages && s.work.stages[id].Looked?
    ensures Handle(s, id, verdict).disk.reading == s.disk.reading && Handle(s, id, verdict).core == s.core
  {
    hide At, Handled, IsCurrent;
  }

  lemma MissReading(s: Cache, id: nat, dedupe: bool)
    requires id in s.core.asks && id in s.work.stages && s.work.stages[id].Missing?
    ensures Miss(s, id, dedupe).disk == s.disk && Miss(s, id, dedupe).core == s.core
  {
  }

  lemma RespondReading(s: Cache, id: nat, answer: Answer)
    requires id in s.core.asks && s.core.asks[id].token in s.core.tokens
    ensures Respond(s, id, answer).disk.reading == s.disk.reading && Respond(s, id, answer).core == s.core
  {
    hide Mark, Complete, IsCurrent, EntryOf;
  }

  lemma MutateReading(s: Cache, kind: Kind, sync: bool, works: bool, keep: bool)
    requires CoreInv(s.core) && ReadingOk(s.disk.reading, s.core.ops) && Mutates(kind)
    ensures var n := Mutate(s, kind, sync, works, keep); ReadingOk(n.disk.reading, n.core.ops)
  {
    CoreNumbered(s.core);
    MutateOps(s, kind, sync, works, keep);
    IssueReading(s.disk.reading, s.core.ops, kind, sync);
    if Waits(s.core.ops, kind) == {} {
      RunsUnlessSync(s.core.ops, kind, sync);
      EffectsReading(s.disk, s.core.ops.next, kind, sync, works, keep, Issue(s.core.ops, kind, sync));
    }
    hide CoreInv, Issue, Waits, Doomed, Tagged, ReadingOk, Effects;
  }

  lemma EffectsReading(d: Disk, id: nat, kind: Kind, sync: bool, works: bool, keep: bool, o: Ops)
    requires ReadingOk(d.reading, o) && id in o.ops && o.ops[id].kind == kind && (!sync ==> o.ops[id].phase.Running?)
    ensures ReadingOk(Effects(d, id, kind, sync, works, keep).reading, o)
  {
  }

  lemma RunsUnlessSync(o: Ops, kind: Kind, sync: bool)
    ensures var n := Issue(o, kind, sync);
            && o.next in n.ops && n.ops[o.next].kind == kind
            && (Waits(o, kind) == {} && !sync ==> n.ops[o.next].phase.Running?)
  {
    hide Waits;
  }

  lemma ClearReading(s: Cache, works: bool)
    requires CoreInv(s.core) && ReadingOk(s.disk.reading, s.core.ops)
    ensures var n := Clearing(s, works); ReadingOk(n.disk.reading, n.core.ops)
  {
    CoreNumbered(s.core);
    IssueReading(s.disk.reading, s.core.ops, Clear(Returning(s.core.ops, s.disk.reading)), true);
    hide CoreInv, Issue, Returning, ReadingOk;
  }

  lemma BeginReading(s: Cache, id: nat, works: bool)
    requires ReadingOk(s.disk.reading, s.core.ops) && Ready(s.core.ops, id)
    ensures var n := Begin(s, id, works); ReadingOk(n.disk.reading, n.core.ops)
  {
  }

  lemma RewriteReading(d: Disk, o: Ops, id: nat, key: Key, keep: bool, works: bool)
    requires ReadingOk(d.reading, o) && id in d.reading
    ensures ReadingOk(Rewrite(d, id, key, keep, works).reading, o)
  {
  }

  lemma StagesStay(stages: map<nat, Stage>, o: Ops, n: Ops)
    requires StagesOk(stages, o) && Extends(o, n)
    ensures StagesOk(stages, n)
  {
  }

  ghost predicate NextStagesOk(s: Cache, e: Event)
    requires Enabled(s, e)
  {
    StagesOk(Step(s, e).work.stages, Step(s, e).core.ops)
  }

  lemma StepStages(s: Cache, e: Event)
    requires CoreInv(s.core) && StagesOk(s.work.stages, s.core.ops) && Enabled(s, e)
    ensures NextStagesOk(s, e)
  {
    StepExtends(s, e);
    StagesStay(s.work.stages, s.core.ops, Step(s, e).core.ops);
    if e.DoRequest? || e.DoLook? || e.DoLease? || e.DoWake? || e.DoHandle? || e.DoMiss? {
      MovedStages(s, e);
    } else {
      SameStages(s, e);
    }
    hide Enabled, Step, StagesOk, CoreInv, Extends;
  }

  lemma SameStages(s: Cache, e: Event)
    requires Enabled(s, e) && !(e.DoRequest? || e.DoLook? || e.DoLease? || e.DoWake? || e.DoHandle? || e.DoMiss?)
    ensures Step(s, e).work.stages == s.work.stages
  {
    hide Finish, Effect, Effects, Rewrite, Release, Ready, Mutate, Clearing, Respond, Settle;
    match e
    case DoRespond(id, answer) => RespondStages(s, id, answer);
    case DoSettle(id, succeeded) => SettleStages(s, id, succeeded);
    case DoMutate(kind, sync, works, keep) => MutateOps(s, kind, sync, works, keep);
    case DoClear(works) => ClearOps(s, works);
    case _ =>
  }

  lemma MovedStages(s: Cache, e: Event)
    requires Enabled(s, e) && (e.DoRequest? || e.DoLook? || e.DoLease? || e.DoWake? || e.DoHandle? || e.DoMiss?)
    requires StagesOk(s.work.stages, s.core.ops) && StagesOk(s.work.stages, Step(s, e).core.ops)
    ensures NextStagesOk(s, e)
  {
    hide Acquire, Handle, Miss, StagesOk, IsCurrent, Pending, At, Handled, Ready;
    match e
    case DoRequest(i, key, tags, raw) =>
      AcquireIssues(s.core, i, key, tags, raw);
      AtStages(s.work, s.core.ops.next, Asked, Step(s, e).core.ops);
    case DoLook(id) => AtStages(s.work, id, Looked(Get(s.disk.store, s.core.asks[id].key)), Step(s, e).core.ops);
    case DoHandle(id, verdict) =>
      HandleStages(s, id, verdict);
      ReadDone(s, id);
      AtStages(s.work, id, Handled(s, id, verdict), s.core.ops);
    case DoMiss(id, dedupe) =>
      MissStages(s, id, dedupe, s.core.ops);
      MissCore(s, id, dedupe);
    case DoLease(id, granted) =>
      ReadDone(s, id);
      AtStages(s.work, id, if granted then Asked else Looked(s.work.stages[id].stale), s.core.ops);
    case DoWake(id) =>
      ReadDone(s, id);
      AtStages(s.work, id, Sent, s.core.ops);
      AtStages(s.work, id, Over, s.core.ops);
  }

  lemma ReadDone(s: Cache, id: nat)
    requires StagesOk(s.work.stages, s.core.ops) && id in s.work.stages && !s.work.stages[id].Asked?
    ensures id in s.core.ops.ops && !s.core.ops.ops[id].phase.Waiting?
  {
  }

  lemma AcquireIssues(c: Core, i: nat, key: Key, tags: set<Tag>, raw: bool)
    ensures c.ops.next in Acquire(c, i, key, tags, raw).ops.ops
  {
  }

  lemma HandleStages(s: Cache, id: nat, verdict: Verdict)
    requires id in s.core.asks && id in s.work.stages && s.work.stages[id].Looked?
    ensures Handle(s, id, verdict).work == At(s.work, id, Handled(s, id, verdict)) && Handle(s, id, verdict).core == s.core
  {
  }

  lemma MissStages(s: Cache, id: nat, dedupe: bool, o: Ops)
    requires id in s.core.asks && id in s.work.stages && s.work.stages[id].Missing?
    requires StagesOk(s.work.stages, o) && id in o.ops
    ensures StagesOk(Miss(s, id, dedupe).work.stages, o)
  {
    var a, stale, w := s.core.asks[id], s.work.stages[id].stale, s.work;
    assert !o.ops[id].phase.Waiting?;
    hide IsCurrent, Pending, Demand, StagesOk, At, Leave, Join;
    AtStages(w, id, Sent, o);
    LeaveStages(w, id, stale, o);
    LeaveStages(Lead(w, id, a), id, stale, o);
    if Pending(w, a).Some? {
      JoinStages(w, id, Pending(w, a).value, o);
    }
  }

  lemma AtStages(w: Work, id: nat, stage: Stage, o: Ops)
    requires StagesOk(w.stages, o) && id in o.ops && (stage.Asked? || !o.ops[id].phase.Waiting?)
    ensures StagesOk(At(w, id, stage).stages, o)
  {
  }

  lemma LeaveStages(w: Work, id: nat, stale: Option<Entry>, o: Ops)
    requires StagesOk(w.stages, o) && id in o.ops && !o.ops[id].phase.Waiting?
    ensures StagesOk(Leave(w, id, stale).stages, o)
  {
  }

  lemma JoinStages(w: Work, id: nat, leader: nat, o: Ops)
    requires StagesOk(w.stages, o) && id in o.ops && !o.ops[id].phase.Waiting?
    ensures StagesOk(Join(w, id, leader).stages, o)
  {
  }

  lemma RespondStages(s: Cache, id: nat, answer: Answer)
    requires Acts(s, id)
    ensures Respond(s, id, answer).work.stages == s.work.stages && Respond(s, id, answer).core == s.core
  {
    RespondShape(s, id, answer);
    hide Respond, EntryOf;
  }

  lemma SettleStages(s: Cache, id: nat, succeeded: bool)
    requires Acts(s, id)
    ensures Settle(s, id, succeeded).work.stages == s.work.stages
  {
  }

  /** A step moves operations forward only. */
  lemma StepExtends(s: Cache, e: Event)
    requires CoreInv(s.core) && Enabled(s, e)
    ensures Extends(s.core.ops, Step(s, e).core.ops)
  {
    CoreNumbered(s.core);
    SameExtends(s.core.ops);
    hide CoreInv, OpsInv, Numbered, Issue, Start, Finish, Extends, Take, Effect, Effects, Rewrite, At, Release,
         Ready, Handle,
         Miss, Respond, Mutate, Clearing;
    match e
    case DoRequest(i, key, tags, raw) => IssueExtends(s.core.ops, Read(key, tags), false);
    case DoLook(id) =>
      if s.core.ops.ops[id].phase.Waiting? {
        StartExtends(s.core.ops, id);
      }
    case DoHandle(id, verdict) => HandleCore(s, id, verdict);
    case DoMiss(id, dedupe) => MissCore(s, id, dedupe);
    case DoRespond(id, answer) => RespondCore(s, id, answer);
    case DoSettle(id, _) => ReleaseSame(s.core, id);
    case DoMutate(kind, sync, works, keep) =>
      MutateOps(s, kind, sync, works, keep);
      IssueExtends(s.core.ops, kind, sync);
    case DoClear(works) =>
      ClearOps(s, works);
      IssueExtends(s.core.ops, Clear(Returning(s.core.ops, s.disk.reading)), true);
    case DoBegin(id, _) => StartExtends(s.core.ops, id);
    case DoFinish(id) => FinishExtends(s.core.ops, id);
    case _ =>
  }

  lemma MissCore(s: Cache, id: nat, dedupe: bool)
    requires id in s.core.asks && id in s.work.stages && s.work.stages[id].Missing?
    ensures Miss(s, id, dedupe).core == s.core
  {
  }

  lemma MutateOps(s: Cache, kind: Kind, sync: bool, works: bool, keep: bool)
    ensures Mutate(s, kind, sync, works, keep).core.ops == Issue(s.core.ops, kind, sync)
    ensures Mutate(s, kind, sync, works, keep).work.stages == s.work.stages
  {
  }

  lemma ClearOps(s: Cache, works: bool)
    ensures Clearing(s, works).core.ops == Issue(s.core.ops, Clear(Returning(s.core.ops, s.disk.reading)), true)
    ensures Clearing(s, works).work.stages == s.work.stages
  {
  }

  lemma StepCache(s: Cache, e: Event)
    requires CacheInv(s) && Enabled(s, e)
    ensures CacheInv(Step(s, e))
  {
    hide CoreInv, DiskInv, WorkInv, StagesOk, ReadingOk, Enabled, Step;
    StepReading(s, e);
    StepCore(s, e);
    StepDisk(s, e);
    StepWork(s, e);
    StepStages(s, e);
  }

  lemma {:induction false} RunInv(s: Cache, events: seq<Event>)
    requires CacheInv(s) && Allowed(s, events)
    ensures CacheInv(Run(s, events))
    decreases |events|
  {
    hide CacheInv, Enabled, Step;
    if events != [] {
      StepCache(s, events[0]);
      RunInv(Step(s, events[0]), events[1..]);
    }
  }

  lemma EmptyInv()
    ensures CacheInv(EMPTY)
  {
    hide CoreInv, DiskInv, WorkInv;
    EmptyCore();
    EmptyDisk();
    EmptyWork();
  }

  lemma RunFromEmpty(events: seq<Event>)
    requires Allowed(EMPTY, events)
    ensures CacheInv(Run(EMPTY, events))
  {
    EmptyInv();
    RunInv(EMPTY, events);
  }

  /** In every run the operations and reads keep the promised order, and never deadlock. */
  lemma RunsKeepOrder(events: seq<Event>)
    requires Allowed(EMPTY, events)
    ensures OpsInv(Run(EMPTY, events).core.ops)
  {
    RunFromEmpty(events);
    hide Run, Allowed, DiskInv, WorkInv, StagesOk;
  }

  // ---------- No stale write, no stale record ----------

  /** In every run, whatever a request writes or deletes: each mutation that concerns its key or its own tags and was
      issued before the write was issued before the request took its token. */
  lemma NoStaleWrite(events: seq<Event>, w: Write, i: nat)
    requires Allowed(EMPTY, events)
    requires var s := Run(EMPTY, events);
             && w in s.disk.writes && i in s.core.ops.ops && i < w.time
             && w.request in s.core.asks && Concerns(s.core.ops.ops[i].kind, w.key, s.core.asks[w.request].tags)
    ensures i < w.request
  {
    RunFromEmpty(events);
    var s := Run(EMPTY, events);
    assert WriteOk(w, s.core.asks, s.core.ops);
    hide Run, Allowed, CoreInv, StoreOk, WorkInv;
  }

  /** In every run a stored record that a request made is younger than every applied mutation of its key and of its
      own tags. A record made by an operation comes from the last one applied, except for those that could still put
      a record when a `clear` ran; for a `set` these are the mutations of its key and of the tags it was issued with,
      and the record carries exactly these tags. */
  lemma StoredIsFresh(events: seq<Event>, key: Key, i: nat)
    requires Allowed(EMPTY, events)
    requires var s := Run(EMPTY, events); key in s.disk.store && i in s.disk.applied && i in s.core.ops.ops
    ensures var s := Run(EMPTY, events);
            var kind, tags := s.core.ops.ops[i].kind, s.disk.store[key].tags;
            match s.disk.store[key].origin
            case ByRequest(q) =>
              q in s.core.asks && s.core.asks[q].key == key && (Concerns(kind, key, s.core.asks[q].tags) ==> i < q)
            case Explicit(q) =>
              && q in s.core.ops.ops && OnKey(s.core.ops.ops[q].kind, key)
              && (s.core.ops.ops[q].kind.Store? ==> tags == s.core.ops.ops[q].kind.tags)
              && (Concerns(kind, key, if s.core.ops.ops[q].kind.Store? then s.core.ops.ops[q].kind.tags else tags) ==>
                    i <= q || (kind.Clear? && q in kind.returning))
  {
    RunFromEmpty(events);
    var s := Run(EMPTY, events);
    assert EntryOk(key, s.disk.store[key], s.core.asks, s.disk.applied, s.core.ops);
    hide Run, Allowed, CoreInv, WritesOk, WorkInv;
  }

  /** Once an invalidation of one of its tags, issued after a `set`, has been applied, no record of the `set` is stored. */
  lemma InvalidatedIsGone(events: seq<Event>, q: nat, i: nat, key: Key)
    requires Allowed(EMPTY, events)
    requires var s := Run(EMPTY, events);
             && q in s.core.ops.ops && s.core.ops.ops[q].kind.Store? && i in s.disk.applied && i in s.core.ops.ops && q < i
             && s.core.ops.ops[i].kind.Invalidate? && s.core.ops.ops[i].kind.tags * s.core.ops.ops[q].kind.tags != {}
    ensures var s := Run(EMPTY, events); key in s.disk.store ==> s.disk.store[key].origin != Explicit(q)
  {
    var s := Run(EMPTY, events);
    hide Run, Allowed;
    if key in s.disk.store {
      StoredIsFresh(events, key, i);
    }
  }

  /** While a request may write, every mutation that concerns it was issued before it and has finished: no answer is
      written between the issue of a mutation and its end. */
  lemma QuietWrite(s: Cache, id: nat, i: nat)
    requires CacheInv(s) && Acts(s, id) && !s.work.stages[id].Asked? && IsCurrent(s.core, s.core.asks[id])
    requires i in s.core.ops.ops && Concerns(s.core.ops.ops[i].kind, s.core.asks[id].key, s.core.asks[id].tags)
    ensures i < id && (s.core.ops.ops[i].kind.Clear? || s.core.ops.ops[i].phase.Done?)
  {
    var o, a := s.core.ops, s.core.asks[id];
    assert AskOk(id, a, s.core.tokens, o);
    assert i < id;
    ConcernedRead(o.ops[i].kind, a.key, a.tags);
    hide DiskInv, WorkInv, MustFollow, Concerns, Numbered, Tracked, WaitsEnough, CurrentOk, GenerationOk, Counted;
  }

  lemma ConcernedRead(kind: Kind, key: Key, tags: set<Tag>)
    requires Concerns(kind, key, tags)
    ensures kind.Clear? || MustFollow(kind, Read(key, tags))
  {
  }

  /** Requests without a current token stay that way: tokens never come back. */
  lemma DeadStaysDead(s: Cache, e: Event, r: nat)
    requires CacheInv(s) && Enabled(s, e) && r in s.core.asks && !Holds(s.core.asks[r], s.core.current)
    ensures var n := Step(s, e).core;
            r in n.asks && n.asks[r] == s.core.asks[r] && !Holds(n.asks[r], n.current)
  {
    hide DiskInv, WorkInv, CoreInv, StagesOk, Issue, Take, Finish, Start, Ready, Effect, Effects, Rewrite, At,
         Doomed, Acquire,
         Handle, Miss, Respond;
    match e
    case DoRequest(i, key, tags, raw) => AcquireKeepsDead(s.core, i, key, tags, raw, r);
    case DoHandle(id, verdict) => HandleCore(s, id, verdict);
    case DoMiss(id, dedupe) => MissCore(s, id, dedupe);
    case DoRespond(id, answer) => RespondCore(s, id, answer);
    case _ =>
  }

  lemma AcquireKeepsDead(c: Core, i: nat, key: Key, tags: set<Tag>, raw: bool, r: nat)
    requires CoreInv(c) && r in c.asks && !Holds(c.asks[r], c.current)
    ensures var n := Acquire(c, i, key, tags, raw);
            r in n.asks && n.asks[r] == c.asks[r] && !Holds(n.asks[r], n.current)
  {
    CoreNumbered(c);
    OpsNumbered(c.ops);
    HeldBefore(c, i, key, tags, raw);
    hide OpsInv, Counted, Fence, Issue, Take;
  }

  /** Whoever has lost its token never writes again. */
  lemma DeadWrites(s: Cache, e: Event, w: Write)
    requires Enabled(s, e) && w.request in s.core.asks && !Holds(s.core.asks[w.request], s.core.current)
    requires w in Step(s, e).disk.writes
    ensures w in s.disk.writes
  {
    hide Issue, Take, Finish, Start, Ready, Acquire, Outdate, OutdateAll, Release, Land, Abandon, Forget, At, Join,
         Lead, Leave;
  }

  lemma {:induction false} DeadNeverWrites(s: Cache, events: seq<Event>, w: Write)
    requires CacheInv(s) && Allowed(s, events) && w.request in s.core.asks && !Holds(s.core.asks[w.request], s.core.current)
    requires w in Run(s, events).disk.writes
    ensures w in s.disk.writes
    decreases |events|
  {
    hide CacheInv, Enabled, Step, Holds;
    if events != [] {
      DeadStaysDead(s, events[0], w.request);
      StepCache(s, events[0]);
      DeadNeverWrites(Step(s, events[0]), events[1..], w);
      DeadWrites(s, events[0], w);
    }
  }

  /** An unsettled request loses a current token exactly when everything is cleared, an installation is removed, or a
      mutation is issued for its key or for a tag its token carries at that moment. */
  lemma TokenDiesExactly(s: Cache, e: Event, r: nat)
    requires CacheInv(s) && Enabled(s, e) && r in s.core.open && r in s.core.asks && Holds(s.core.asks[r], s.core.current)
    requires s.core.asks[r].token in s.core.tokens && (e.DoSettle? ==> e.id != r)
    ensures var a := s.core.asks[r];
            !Holds(a, Step(s, e).core.current)
            <==> e.DoClear? || e.DoUninstall?
                 || (e.DoMutate? && Concerns(e.kind, a.key, s.core.tokens[a.token].tags))
  {
    hide *;
    if e.DoRequest? || e.DoSettle? || e.DoMutate? || e.DoClear? || e.DoUninstall? {
      TokenEvents(s, e, r);
    } else {
      SameCurrent(s, e);
    }
  }

  lemma SameCurrent(s: Cache, e: Event)
    requires Enabled(s, e) && !(e.DoRequest? || e.DoSettle? || e.DoMutate? || e.DoClear? || e.DoUninstall?)
    ensures Step(s, e).core.current == s.core.current
  {
    hide Issue, Take, Finish, Start, Ready, Effect, Effects, Rewrite, At, Handle, Miss, Respond;
    match e
    case DoHandle(id, verdict) => HandleCore(s, id, verdict);
    case DoMiss(id, dedupe) => MissCore(s, id, dedupe);
    case DoRespond(id, answer) => RespondCore(s, id, answer);
    case _ =>
  }

  lemma TokenEvents(s: Cache, e: Event, r: nat)
    requires CacheInv(s) && Enabled(s, e) && r in s.core.open && r in s.core.asks && Holds(s.core.asks[r], s.core.current)
    requires s.core.asks[r].token in s.core.tokens && (e.DoSettle? ==> e.id != r)
    requires e.DoRequest? || e.DoSettle? || e.DoMutate? || e.DoClear? || e.DoUninstall?
    ensures var a := s.core.asks[r];
            !Holds(a, Step(s, e).core.current)
            <==> e.DoClear? || e.DoUninstall?
                 || (e.DoMutate? && Concerns(e.kind, a.key, s.core.tokens[a.token].tags))
  {
    hide CoreInv, DiskInv, WorkInv, StagesOk, Issue, Take, Effects, At, Doomed, Release, Concerns;
    match e
    case DoSettle(id, succeeded) => SettleKeeps(s.core, id, r);
    case DoMutate(kind, sync, works, keep) => DoomedExactly(s.core, kind, r);
    case _ =>
  }

  lemma SettleKeeps(c: Core, id: nat, r: nat)
    requires CoreInv(c) && r in c.open && r in c.asks && Holds(c.asks[r], c.current)
    requires id in c.open && id in c.asks && c.asks[id].token in c.tokens
    ensures id != r ==> Holds(c.asks[r], Release(c, id).current)
  {
    if id != r {
      ReleaseHolds(c, id, r);
    }
    hide CoreInv, Release;
  }

  lemma DoomedExactly(c: Core, kind: Kind, r: nat)
    requires CoreInv(c) && r in c.asks && Holds(c.asks[r], c.current) && c.asks[r].token in c.tokens
    requires Changes(kind) || kind.Invalidate?
    ensures c.asks[r].key in Doomed(c, kind) <==> Concerns(kind, c.asks[r].key, c.tokens[c.asks[r].token].tags)
  {
  }

  /** What may be stored is stored: with a current token, and no raw leader waiting to write, the answer is kept under
      the tags of its request. */
  lemma AnswerIsKept(s: Cache, id: nat)
    requires CacheInv(s) && Acts(s, id) && s.work.stages[id].Sent? && Holds(s.core.asks[id], s.core.current)
    requires !(Leads(s.work, id) && s.work.flights[id].rawDemanded)
    ensures var n, a := Respond(s, id, Storable), s.core.asks[id];
            && a.key in n.disk.store && n.disk.store[a.key].origin == ByRequest(id) && a.tags <= n.disk.store[a.key].tags
            && forall k | k != a.key :: k in n.disk.store <==> k in s.disk.store
  {
    hide CoreInv, DiskInv, WorkInv, StagesOk, IsCurrent, Leads, EntryOf;
    TokenDecides(s, id);
    EntryTags(s, id);
  }

  lemma EntryTags(s: Cache, id: nat)
    requires CoreInv(s.core) && id in s.core.asks && s.core.asks[id].token in s.core.tokens
    ensures EntryOf(s, id).origin == ByRequest(id) && s.core.asks[id].tags <= EntryOf(s, id).tags
  {
  }

  /** A leader that answers with a storable response and succeeds settles its followers' promise with its own record. */
  lemma LeaderShares(s: Cache, id: nat)
    requires Acts(s, id) && Leads(s.work, id) && s.work.flights[id].promised && id !in s.work.uncacheable
    requires s.work.flights[id].outcomes == []
    ensures var r := Respond(s, id, Storable);
            && Acts(r, id)
            && var n := Settle(r, id, true).work.flights;
               id in n && !n[id].registered && n[id].outcomes == [Shared(EntryOf(s, id))]
  {
    RespondCore(s, id, Storable);
    hide IsCurrent, Drop, Save, Release, EntryOf;
  }

  /** The comparison of global generations adds nothing to the comparison of tokens. */
  lemma TokenDecides(s: Cache, r: nat)
    requires CacheInv(s) && r in s.core.asks
    ensures IsCurrent(s.core, s.core.asks[r]) <==> Holds(s.core.asks[r], s.core.current)
  {
    hide DiskInv, WorkInv, OpsInv, Fence, Counted, Holds;
  }

  // ---------- Tokens, leaders and followers ----------

  /** A token counts exactly the unsettled requests that hold it, and no token is current without one. */
  lemma TokensCountHolders(events: seq<Event>, t: nat)
    requires Allowed(EMPTY, events) && t in Run(EMPTY, events).core.tokens
    ensures var c := Run(EMPTY, events).core;
            && c.tokens[t].active == |Holders(c.asks, c.open, t)|
            && (c.tokens[t].key in c.current && c.current[c.tokens[t].key] == t ==> Holders(c.asks, c.open, t) != {})
  {
    RunFromEmpty(events);
    hide Run, Allowed, OpsInv, Fence, DiskInv, WorkInv;
  }

  /** At most one leader of a kind and key has a current token. */
  lemma OneLeader(events: seq<Event>, p: nat, q: nat)
    requires Allowed(EMPTY, events)
    requires var s := Run(EMPTY, events);
             && p in s.work.flights && q in s.work.flights && s.work.flights[p].registered && s.work.flights[q].registered
             && s.work.flights[p].raw == s.work.flights[q].raw && p in s.core.asks && q in s.core.asks
             && s.core.asks[p].key == s.core.asks[q].key
             && Holds(s.core.asks[p], s.core.current) && Holds(s.core.asks[q], s.core.current)
    ensures p == q
  {
    RunFromEmpty(events);
    hide Run, Allowed, CoreInv, DiskInv, LinksOk, Together, FollowersOk;
  }

  /** What a follower may count on: its leader works on its key, for raw followers on a raw response, and under its own
      token, unless the leader was in flight when another installation was removed. The promise it waits for is
      unsettled while the leader is unsettled and its installation is there, and has settled exactly once otherwise. */
  lemma FollowersAreServed(events: seq<Event>, r: nat)
    requires Allowed(EMPTY, events)
    requires var s := Run(EMPTY, events); r in s.work.stages && s.work.stages[r].Following?
    ensures var s := Run(EMPTY, events);
            var p := s.work.stages[r].leader;
            && r in s.core.asks && p in s.core.asks && p in s.work.flights
            && s.core.asks[p].key == s.core.asks[r].key && (s.core.asks[r].raw ==> s.core.asks[p].raw)
            && (p in s.orphans || s.core.asks[p].token == s.core.asks[r].token)
            && |s.work.flights[p].outcomes|
               == if p in s.core.open && s.core.asks[p].installation in s.installed then 0 else 1
  {
    RunFromEmpty(events);
    var s := Run(EMPTY, events);
    var p := s.work.stages[r].leader;
    hide Run, Allowed, CoreInv, DiskInv;
    assert FollowerOk(s.core.asks[r], p, s.work.flights, s.core.asks, s.orphans);
    assert FlightOk(p, s.work.flights[p], s.core.asks, s.core.open, s.work.stages, s.installed);
    hide LinksOk, LeadersFound, Together;
  }

  /** A record shared with followers is their leader's own. */
  lemma SharedRecords(events: seq<Event>, p: nat, e: Entry)
    requires Allowed(EMPTY, events)
    requires var s := Run(EMPTY, events); p in s.work.flights && Shared(e) in s.work.flights[p].outcomes
    ensures e.origin == ByRequest(p)
  {
    RunFromEmpty(events);
    var s := Run(EMPTY, events);
    hide Run, Allowed, CoreInv, DiskInv;
    assert OwnOutcomes(p, s.work.flights[p]);
    hide FlightsOk, LeadersFound, Together, FollowersOk;
  }

  /** While a raw leader of the key is under way, a data leader with a current token leaves the store alone. */
  lemma RawLeaderWrites(s: Cache, p: nat)
    requires CacheInv(s) && Acts(s, p) && Leads(s.work, p) && !s.work.flights[p].raw
    requires s.core.asks[p].key in s.work.rawInFlight
    ensures Respond(s, p, Storable).disk == s.disk
  {
    hide CoreInv, DiskInv, FlightsOk, FollowersOk, Together, EntryOf;
  }
}
