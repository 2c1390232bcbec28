/** What every operation makes of the store, record by record, and where the tags of an updated record come from. */
module CacheEffects {
  import opened Collections
  import opened CacheOperations
  import opened CacheProtocol
  import opened CacheFence
  import opened CacheFreshness
  import opened CacheGuarantees
  import opened CacheReturns

  /** Nothing has happened to the record of a key. */
  predicate Unchanged(was: map<Key, Entry>, now: map<Key, Entry>, key: Key) {
    if key in was then key in now && now[key] == was[key] else key !in now
  }

  /** The store after the call of an operation: records that it does not concern stay as they are. */
  ghost predicate CallMade(was: map<Key, Entry>, now: map<Key, Entry>, id: nat, kind: Kind, works: bool) {
    if !works || kind.Update? || kind.Read? then now == was
    else
      match kind
      case Delete(key) => key !in now && forall k | k != key :: Unchanged(was, now, k)
      case Store(key, tags) =>
        && key in now && now[key].origin == Explicit(id) && now[key].tags == tags
        && forall k | k != key :: Unchanged(was, now, k)
      case Invalidate(tags) =>
        forall k :: if k in was && exists t :: t in tags && t in was[k].tags then k !in now else Unchanged(was, now, k)
      case _ => now == map[]
  }

  /** The store once an update has written back what it found: the record keeps its tags, or is deleted. */
  ghost predicate UpdateMade(was: map<Key, Entry>, now: map<Key, Entry>, found: Option<Entry>, id: nat, key: Key,
                             keep: bool, works: bool) {
    if found.None? || !works then now == was
    else
      && (if keep then key in now && now[key].origin == Explicit(id) && now[key].tags == found.value.tags else key !in now)
      && forall k | k != key :: Unchanged(was, now, k)
  }

  function Found(store: map<Key, Entry>, key: Key): Option<Entry> {
    if key in store then Some(store[key]) else None
  }

  lemma EffectMade(d: Disk, id: nat, kind: Kind, works: bool)
    ensures CallMade(d.store, Effect(d, id, kind, works).store, id, kind, works)
    ensures kind.Update? ==> Effect(d, id, kind, works).reading == d.reading[id := Found(d.store, kind.key)]
    ensures !kind.Update? ==> Effect(d, id, kind, works).reading == d.reading
  {
    if kind.Invalidate? && works {
      forall k | k in d.store
        ensures d.store[k].tags * kind.tags == {} <==> !exists t :: t in kind.tags && t in d.store[k].tags
      {
        if t :| t in kind.tags && t in d.store[k].tags {
          assert t in d.store[k].tags * kind.tags;
        }
      }
    }
  }

  lemma RewriteMade(d: Disk, id: nat, key: Key, keep: bool, works: bool)
    requires id in d.reading
    ensures UpdateMade(d.store, Rewrite(d, id, key, keep, works).store, d.reading[id], id, key, keep, works)
    ensures Rewrite(d, id, key, keep, works).reading == d.reading - {id}
  {
  }

  /** A mutation calls the store at once if and only if everything it must follow has finished; otherwise the store
      stays as it is. An update over a store that answers at once has then already written back. */
  lemma MutationMade(s: Cache, kind: Kind, sync: bool, works: bool, keep: bool)
    requires CacheInv(s) && Enabled(s, DoMutate(kind, sync, works, keep))
    ensures var n, id := Step(s, DoMutate(kind, sync, works, keep)), s.core.ops.next;
            var free := forall i | i in s.core.ops.ops && MustFollow(s.core.ops.ops[i].kind, kind) ::
                          s.core.ops.ops[i].phase.Done?;
            if !free then n.disk == s.disk
            else if kind.Update? && sync then
              UpdateMade(s.disk.store, n.disk.store, Found(s.disk.store, kind.key), id, kind.key, keep, works)
            else CallMade(s.disk.store, n.disk.store, id, kind, works)
  {
    hide CacheInv, CoreInv, DiskInv, Issue, Waits, MustFollow, Effect, Rewrite, Outdate, Forget, CallMade, UpdateMade;
    var d, id := s.disk, s.core.ops.next;
    CoreOf(s);
    CoreNumbered(s.core);
    StartsExactly(s.core.ops, kind, sync);
    TrackOps(s.core.ops, kind, sync);
    EffectMade(d, id, kind, works);
    if kind.Update? {
      SameStore(d, id, kind, works);
      RewriteMade(Effect(d, id, kind, works), id, kind.key, keep, works);
    }
  }

  lemma SameStore(d: Disk, id: nat, kind: Kind, works: bool)
    requires kind.Update?
    ensures Effect(d, id, kind, works).store == d.store && id in Effect(d, id, kind, works).reading
  {
  }

  /** An operation that starts calls the store; an update finds what is there. */
  lemma BeginMade(s: Cache, id: nat, works: bool)
    requires Enabled(s, DoBegin(id, works))
    ensures var n, kind := Step(s, DoBegin(id, works)), s.core.ops.ops[id].kind;
            && CallMade(s.disk.store, n.disk.store, id, kind, works)
            && (kind.Update? ==> id in n.disk.reading && n.disk.reading[id] == Found(s.disk.store, kind.key))
  {
    assert id in s.core.ops.ops;
    hide Ready, Start, Effect, CallMade;
    EffectMade(s.disk, id, s.core.ops.ops[id].kind, works);
  }

  lemma UpdateWritesBack(s: Cache, id: nat, keep: bool, works: bool)
    requires Enabled(s, DoRewrite(id, keep, works))
    ensures var n, key := Step(s, DoRewrite(id, keep, works)), s.core.ops.ops[id].kind.key;
            UpdateMade(s.disk.store, n.disk.store, s.disk.reading[id], id, key, keep, works)
  {
    hide Rewrite, UpdateMade;
    RewriteMade(s.disk, id, s.core.ops.ops[id].kind.key, keep, works);
  }

  /** A `clear` empties the store at once if that works, and all tokens and flights are out of reach at once. */
  lemma ClearMade(s: Cache, works: bool)
    ensures var n := Step(s, DoClear(works));
            && n.disk.store == (if works then map[] else s.disk.store) && n.core.generation == s.core.generation + 1
            && n.core.current == map[] && n.work.inFlight == map[] && n.work.rawInFlight == map[]
  {
    hide Issue, Returning;
  }

  // ---------- The tags of updated records ----------

  lemma {:induction false} RunSplit(s: Cache, a: seq<Event>, b: seq<Event>)
    requires Allowed(s, a + b)
    ensures Allowed(s, a) && Allowed(Run(s, a), b) && Run(s, a + b) == Run(Run(s, a), b)
    decreases |a|
  {
    hide Enabled, Step;
    if a == [] {
      assert a + b == b;
    } else {
      assert (a + b)[0] == a[0] && (a + b)[1..] == a[1..] + b;
      RunSplit(Step(s, a[0]), a[1..], b);
    }
  }

  lemma LastStep(events: seq<Event>)
    requires Allowed(EMPTY, events) && events != []
    ensures var front, e := events[..|events| - 1], events[|events| - 1];
            Allowed(EMPTY, front) && Enabled(Run(EMPTY, front), e) && Run(EMPTY, events) == Step(Run(EMPTY, front), e)
  {
    hide Enabled, Step;
    var front, e := events[..|events| - 1], events[|events| - 1];
    assert events == front + [e];
    RunSplit(EMPTY, front, [e]);
    assert [e][1..] == [];
    assert Allowed(Run(EMPTY, front), [e]);
  }

  /** The event in which an operation calls the store. */
  predicate Calls(s: Cache, e: Event, q: nat) {
    (e.DoBegin? && e.id == q) || (e.DoMutate? && s.core.ops.next == q)
  }

  /** When operation `q` called the store, in event `i`, the record of the key there carried these tags. */
  ghost predicate ReadAt(events: seq<Event>, i: nat, q: nat, key: Key, tags: set<Tag>) {
    && i < |events| && Allowed(EMPTY, events[..i])
    && var s := Run(EMPTY, events[..i]);
       Calls(s, events[i], q) && key in s.disk.store && s.disk.store[key].tags == tags
  }

  ghost predicate WasRead(events: seq<Event>, q: nat, key: Key, tags: set<Tag>) {
    exists i: nat :: ReadAt(events, i, q, key, tags)
  }

  ghost predicate ReadingsKept(events: seq<Event>, reading: map<nat, Option<Entry>>, o: Ops) {
    forall q | q in reading && reading[q].Some? ::
      q in o.ops && o.ops[q].kind.Update? && WasRead(events, q, o.ops[q].kind.key, reading[q].value.tags)
  }

  ghost predicate UpdatesKept(events: seq<Event>, store: map<Key, Entry>, o: Ops) {
    forall k | k in store && store[k].origin.Explicit? && store[k].origin.op in o.ops
               && o.ops[store[k].origin.op].kind.Update? :: WasRead(events, store[k].origin.op, k, store[k].tags)
  }

  lemma StillRead(front: seq<Event>, e: Event, q: nat, key: Key, tags: set<Tag>)
    requires WasRead(front, q, key, tags)
    ensures WasRead(front + [e], q, key, tags)
  {
    hide Run, Allowed;
    var i: nat :| ReadAt(front, i, q, key, tags);
    assert i < |front|;
    assert (front + [e])[..i] == front[..i];
    assert ReadAt(front + [e], i, q, key, tags);
  }

  lemma ReadNow(front: seq<Event>, e: Event, q: nat, key: Key)
    requires Allowed(EMPTY, front) && Calls(Run(EMPTY, front), e, q) && key in Run(EMPTY, front).disk.store
    ensures WasRead(front + [e], q, key, Run(EMPTY, front).disk.store[key].tags)
  {
    hide Run, Allowed;
    assert (front + [e])[..|front|] == front;
    assert ReadAt(front + [e], |front|, q, key, Run(EMPTY, front).disk.store[key].tags);
  }

  /** What an event can do to readings and to explicit records. */
  ghost predicate Moves(s: Cache, n: Cache, e: Event) {
    && (forall q | q in n.disk.reading ::
          (q in s.disk.reading && n.disk.reading[q] == s.disk.reading[q])
          || (Calls(s, e, q) && q in n.core.ops.ops && n.core.ops.ops[q].kind.Update?
              && n.disk.reading[q] == Found(s.disk.store, n.core.ops.ops[q].kind.key)))
    && (forall k | k in n.disk.store && n.disk.store[k].origin.Explicit? ::
          (k in s.disk.store && n.disk.store[k] == s.disk.store[k]) || JustPut(s, n, e, k, n.disk.store[k].origin.op))
  }

  /** An operation has just put its record: a `set`, or an update with the tags it has read. */
  ghost predicate JustPut(s: Cache, n: Cache, e: Event, k: Key, q: nat)
    requires k in n.disk.store
  {
    && q in n.core.ops.ops
    && (n.core.ops.ops[q].kind.Update? ==>
          && n.core.ops.ops[q].kind.key == k
          && ((q in s.disk.reading && s.disk.reading[q].Some? && n.disk.store[k].tags == s.disk.reading[q].value.tags)
              || (Calls(s, e, q) && k in s.disk.store && n.disk.store[k].tags == s.disk.store[k].tags)))
  }

  lemma StepMoves(s: Cache, e: Event)
    requires CacheInv(s) && Enabled(s, e)
    ensures Moves(s, Step(s, e), e)
  {
    hide CacheInv, Step, Enabled, Moves;
    match e
    case DoMutate(kind, sync, works, keep) => MutateMoves(s, kind, sync, works, keep);
    case DoBegin(id, works) => BeginMoves(s, id, works);
    case DoRewrite(id, keep, works) => RewriteMoves(s, id, keep, works);
    case _ => OtherMoves(s, e);
  }

  lemma OtherMoves(s: Cache, e: Event)
    requires Enabled(s, e) && !e.DoMutate? && !e.DoBegin? && !e.DoRewrite?
    ensures Moves(s, Step(s, e), e)
  {
    hide Issue, Take, Finish, Start, Ready, Acquire, Outdate, OutdateAll, Release, Land, Abandon, Forget, At, Join, Lead,
         Leave, IsCurrent, Returning, JustPut;
  }

  lemma MutateMoves(s: Cache, kind: Kind, sync: bool, works: bool, keep: bool)
    requires CacheInv(s) && Enabled(s, DoMutate(kind, sync, works, keep))
    ensures Moves(s, Step(s, DoMutate(kind, sync, works, keep)), DoMutate(kind, sync, works, keep))
  {
    hide CacheInv, CoreInv, DiskInv, Issue, Waits, Doomed, Forget, CallMade, Outdate, Effects, Moves;
    var e, id := DoMutate(kind, sync, works, keep), s.core.ops.next;
    CoreOf(s);
    CoreNumbered(s.core);
    TrackOps(s.core.ops, kind, sync);
    MutateOps(s, kind, sync, works, keep);
    NothingMoves(s, Step(s, e), e);
    EffectsMove(s, Step(s, e), e, kind, sync, works, keep);
  }

  lemma NothingMoves(s: Cache, n: Cache, e: Event)
    ensures n.disk == s.disk ==> Moves(s, n, e)
  {
  }

  lemma EffectsMove(s: Cache, n: Cache, e: Event, kind: Kind, sync: bool, works: bool, keep: bool)
    requires e.DoMutate? && s.core.ops.next in n.core.ops.ops && n.core.ops.ops[s.core.ops.next].kind == kind
    ensures n.disk == Effects(s.disk, s.core.ops.next, kind, sync, works, keep) ==> Moves(s, n, e)
  {
  }

  lemma BeginMoves(s: Cache, id: nat, works: bool)
    requires Enabled(s, DoBegin(id, works))
    ensures Moves(s, Step(s, DoBegin(id, works)), DoBegin(id, works))
  {
    hide CallMade;
    assert id in s.core.ops.ops;
    EffectMade(s.disk, id, s.core.ops.ops[id].kind, works);
    hide Ready;
  }

  lemma RewriteMoves(s: Cache, id: nat, keep: bool, works: bool)
    requires Enabled(s, DoRewrite(id, keep, works))
    ensures Moves(s, Step(s, DoRewrite(id, keep, works)), DoRewrite(id, keep, works))
  {
  }

  lemma KeptOn(front: seq<Event>, e: Event, s: Cache, n: Cache)
    requires Allowed(EMPTY, front) && s == Run(EMPTY, front) && CacheInv(s) && Moves(s, n, e)
    requires Extends(s.core.ops, n.core.ops)
    requires ReadingsKept(front, s.disk.reading, s.core.ops) && UpdatesKept(front, s.disk.store, s.core.ops)
    ensures ReadingsKept(front + [e], n.disk.reading, n.core.ops) && UpdatesKept(front + [e], n.disk.store, n.core.ops)
  {
    hide Run, Allowed, WasRead, CoreInv, StagesOk, ReadingOk, ClearsOk, ClosedOk, WritesOk, AppliedOk;
    forall q | q in n.disk.reading && n.disk.reading[q].Some?
      ensures q in n.core.ops.ops && n.core.ops.ops[q].kind.Update?
      ensures WasRead(front + [e], q, n.core.ops.ops[q].kind.key, n.disk.reading[q].value.tags)
    {
      if q in s.disk.reading && n.disk.reading[q] == s.disk.reading[q] {
        StillRead(front, e, q, s.core.ops.ops[q].kind.key, s.disk.reading[q].value.tags);
      } else {
        ReadNow(front, e, q, n.core.ops.ops[q].kind.key);
      }
    }
    forall k | k in n.disk.store && n.disk.store[k].origin.Explicit? && n.disk.store[k].origin.op in n.core.ops.ops
               && n.core.ops.ops[n.disk.store[k].origin.op].kind.Update?
      ensures WasRead(front + [e], n.disk.store[k].origin.op, k, n.disk.store[k].tags)
    {
      var q := n.disk.store[k].origin.op;
      if k in s.disk.store && n.disk.store[k] == s.disk.store[k] {
        assert EntryOk(k, s.disk.store[k], s.core.asks, s.disk.applied, s.core.ops);
        StillRead(front, e, q, k, s.disk.store[k].tags);
      } else if q in s.disk.reading && s.disk.reading[q].Some? && n.disk.store[k].tags == s.disk.reading[q].value.tags {
        StillRead(front, e, q, k, s.disk.reading[q].value.tags);
      } else {
        ReadNow(front, e, q, k);
      }
    }
  }

  lemma {:induction false} RunKeeps(events: seq<Event>)
    requires Allowed(EMPTY, events)
    ensures var s := Run(EMPTY, events);
            ReadingsKept(events, s.disk.reading, s.core.ops) && UpdatesKept(events, s.disk.store, s.core.ops)
    decreases |events|
  {
    if events != [] {
      hide CacheInv, Enabled, Step, Run, Allowed, Moves, ReadingsKept, UpdatesKept, Extends;
      var front, e := events[..|events| - 1], events[|events| - 1];
      LastStep(events);
      RunKeeps(front);
      RunFromEmpty(front);
      CoreOf(Run(EMPTY, front));
      StepMoves(Run(EMPTY, front), e);
      StepExtends(Run(EMPTY, front), e);
      KeptOn(front, e, Run(EMPTY, front), Run(EMPTY, events));
      assert events == front + [e];
    }
  }

  /** In every run the record of an `update` carries the tags of the record that the `update` found under the key when
      it called the store. */
  lemma UpdateKeepsTags(events: seq<Event>, key: Key, q: nat)
    requires Allowed(EMPTY, events)
    requires var s := Run(EMPTY, events);
             && key in s.disk.store && s.disk.store[key].origin == Explicit(q)
             && q in s.core.ops.ops && s.core.ops.ops[q].kind.Update?
    ensures exists i: nat :: ReadAt(events, i, q, key, Run(EMPTY, events).disk.store[key].tags)
  {
    RunKeeps(events);
    hide Run, Allowed, ReadAt;
  }
}
