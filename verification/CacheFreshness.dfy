/** What the store holds, and what requests have written to it, is never older than what invalidated it. */
module CacheFreshness {
  import opened Collections
  import opened CacheOperations
  import opened CacheProtocol
  import opened CacheFence

  // ---------- The invariant ----------

  /** A request's record belongs to a request of that key, and everything applied since then left it valid. */
  ghost predicate AnswerOk(k: Key, q: nat, tags: set<Tag>, asks: map<nat, Ask>, applied: set<nat>, o: Ops) {
    && q in asks && asks[q].key == k && asks[q].tags <= tags
    && forall i | i in applied && i in o.ops && Concerns(o.ops[i].kind, k, asks[q].tags) :: i < q
  }

  /** An explicit record comes from the last operation applied to its key, except that a `clear` does not reach
      operations that could still put a record when it ran. The record of a `set` carries the tags of the `set`. */
  ghost predicate ExplicitOk(k: Key, q: nat, tags: set<Tag>, applied: set<nat>, o: Ops) {
    && q in o.ops && OnKey(o.ops[q].kind, k) && OwnTags(o.ops[q].kind, tags)
    && forall i | i in applied && i in o.ops && Concerns(o.ops[i].kind, k, tags) && i > q ::
         o.ops[i].kind.Clear? && q in o.ops[i].kind.returning
  }

  predicate OwnTags(kind: Kind, tags: set<Tag>) {
    kind.Store? ==> tags == kind.tags
  }

  ghost predicate EntryOk(k: Key, e: Entry, asks: map<nat, Ask>, applied: set<nat>, o: Ops) {
    match e.origin
    case ByRequest(q) => AnswerOk(k, q, e.tags, asks, applied, o)
    case Explicit(q) => ExplicitOk(k, q, e.tags, applied, o)
  }

  ghost predicate StoreOk(store: map<Key, Entry>, asks: map<nat, Ask>, applied: set<nat>, o: Ops) {
    forall k | k in store :: EntryOk(k, store[k], asks, applied, o)
  }

  /** Only what has started has been applied. */
  ghost predicate AppliedOk(applied: set<nat>, o: Ops) {
    forall i | i in applied :: i in o.ops && !o.ops[i].phase.Waiting?
  }

  /** Nothing is left for the operation to put: a `set` has called the store, an `update` has read nothing, and if it
      still waits there is nothing to read. */
  ghost predicate Spent(q: nat, store: map<Key, Entry>, reading: map<nat, Option<Entry>>, o: Ops)
    requires q in o.ops
  {
    match o.ops[q].kind
    case Store(_, _) => !o.ops[q].phase.Waiting?
    case Update(key) =>
      (o.ops[q].phase.Waiting? ==> key !in store) && (q in reading ==> reading[q].None?)
    case _ => true
  }

  /** After a `clear` only the operations it remembers can still put a record. */
  ghost predicate ClearsOk(d: Disk, o: Ops) {
    forall c, q | c in d.applied && c in o.ops && o.ops[c].kind.Clear? && q in o.ops && q < c
                  && q !in o.ops[c].kind.returning ::
      Spent(q, d.store, d.reading, o)
  }

  /** An update waiting behind an operation a `clear` remembers is remembered too. */
  ghost predicate ClosedOk(o: Ops) {
    forall c, p, q | c in o.ops && o.ops[c].kind.Clear? && p in o.ops[c].kind.returning && p in o.ops && q in o.ops
                     && p < q < c && WaitsBehind(o, p, q) ::
      q in o.ops[c].kind.returning
  }

  ghost predicate WaitsBehind(o: Ops, p: nat, q: nat)
    requires p in o.ops && q in o.ops
  {
    o.ops[q].kind.Update? && o.ops[q].phase.Waiting? && OnKey(o.ops[p].kind, o.ops[q].kind.key)
  }

  /** No stale write: whatever was issued before a write and concerns it was issued before its request. */
  ghost predicate WriteOk(w: Write, asks: map<nat, Ask>, o: Ops) {
    && w.time <= o.next && w.request in asks && asks[w.request].key == w.key
    && forall i | i in o.ops && i < w.time && Concerns(o.ops[i].kind, w.key, asks[w.request].tags) :: i < w.request
  }

  ghost predicate WritesOk(writes: set<Write>, asks: map<nat, Ask>, o: Ops) {
    forall w | w in writes :: WriteOk(w, asks, o)
  }

  ghost predicate DiskInv(d: Disk, asks: map<nat, Ask>, o: Ops) {
    && StoreOk(d.store, asks, d.applied, o) && AppliedOk(d.applied, o) && WritesOk(d.writes, asks, o)
    && ClearsOk(d, o) && ClosedOk(o)
  }

  // ---------- Operations move on, requests come ----------

  lemma DiskStays(d: Disk, asks: map<nat, Ask>, more: map<nat, Ask>, o: Ops, n: Ops)
    requires DiskInv(d, asks, o) && Extends(o, n) && Numbered(o)
    requires forall r | r in asks :: r in more && more[r] == asks[r]
    requires o.next in n.ops && n.ops[o.next].kind.Clear? ==> n.ops[o.next].kind.returning == Returning(o, d.reading)
    ensures DiskInv(d, more, n)
  {
    RecordsStay(d, asks, more, o, n);
    ClearsStay(d, o, n);
    ClosedStays(d.reading, o, n);
    hide StoreOk, AppliedOk, WritesOk, ClearsOk, ClosedOk;
  }

  lemma RecordsStay(d: Disk, asks: map<nat, Ask>, more: map<nat, Ask>, o: Ops, n: Ops)
    requires StoreOk(d.store, asks, d.applied, o) && AppliedOk(d.applied, o) && WritesOk(d.writes, asks, o)
    requires Extends(o, n) && forall r | r in asks :: r in more && more[r] == asks[r]
    ensures StoreOk(d.store, more, d.applied, n) && AppliedOk(d.applied, n) && WritesOk(d.writes, more, n)
  {
  }

  lemma ClearsStay(d: Disk, o: Ops, n: Ops)
    requires ClearsOk(d, o) && Extends(o, n) && Numbered(o) && AppliedOk(d.applied, o)
    ensures ClearsOk(d, n)
  {
  }

  lemma ClosedStays(reading: map<nat, Option<Entry>>, o: Ops, n: Ops)
    requires ClosedOk(o) && Extends(o, n) && Numbered(o)
    requires o.next in n.ops && n.ops[o.next].kind.Clear? ==> n.ops[o.next].kind.returning == Returning(o, reading)
    ensures ClosedOk(n)
  {
    forall p, q | p in n.ops && q in n.ops && p < q < o.next && p in Returning(o, reading) && WaitsBehind(n, p, q)
      ensures q in Returning(o, reading)
    {
    }
    hide Returns;
  }

  // ---------- Operations apply ----------

  /** Every applied `clear` issued after the operation remembers it. */
  ghost predicate Remembered(id: nat, applied: set<nat>, o: Ops) {
    forall c | c in applied && c in o.ops && o.ops[c].kind.Clear? && c > id :: id in o.ops[c].kind.returning
  }

  /** An operation that puts a record on its key finds nobody behind it that a `clear` does not remember. */
  lemma NobodyDryBehind(id: nat, key: Key, applied: set<nat>, o: Ops, c: nat, q: nat)
    requires Ordered(o) && ClosedOk(o) && Remembered(id, applied, o)
    requires id in o.ops && OnKey(o.ops[id].kind, key) && !o.ops[id].phase.Waiting?
    requires c in applied && c in o.ops && o.ops[c].kind.Clear? && q in o.ops && q < c && q !in o.ops[c].kind.returning
    requires o.ops[id].phase.Done? ==> forall i | i in o.ops :: i <= id
    ensures o.ops[q].kind != Update(key) || !o.ops[q].phase.Waiting?
  {
    if o.ops[q].kind == Update(key) && o.ops[q].phase.Waiting? && id < q {
      assert WaitsBehind(o, id, q);
    }
    assert q < id && OnKey(o.ops[q].kind, key) ==> MustFollow(o.ops[q].kind, o.ops[id].kind);
  }

  lemma PutRecords(d: Disk, id: nat, key: Key, tags: set<Tag>, asks: map<nat, Ask>, o: Ops)
    requires DiskInv(d, asks, o) && Ordered(o) && Remembered(id, d.applied, o)
    requires id in o.ops && OnKey(o.ops[id].kind, key) && !o.ops[id].phase.Waiting?
    requires o.ops[id].phase.Done? ==> forall i | i in o.ops :: i <= id
    requires OwnTags(o.ops[id].kind, tags)
    ensures DiskInv(d.(store := d.store[key := Entry(Explicit(id), tags)], applied := d.applied + {id}), asks, o)
  {
    var n := d.(store := d.store[key := Entry(Explicit(id), tags)], applied := d.applied + {id});
    PutStore(d, id, key, tags, asks, o);
    forall c, q | c in n.applied && c in o.ops && o.ops[c].kind.Clear? && q in o.ops && q < c
                  && q !in o.ops[c].kind.returning
      ensures Spent(q, n.store, n.reading, o)
    {
      assert Spent(q, d.store, d.reading, o);
      NobodyDryBehind(id, key, d.applied, o, c, q);
    }
    hide StoreOk, WritesOk, ClosedOk, Ordered;
  }

  lemma PutStore(d: Disk, id: nat, key: Key, tags: set<Tag>, asks: map<nat, Ask>, o: Ops)
    requires StoreOk(d.store, asks, d.applied, o) && AppliedOk(d.applied, o) && Ordered(o) && Remembered(id, d.applied, o)
    requires id in o.ops && OnKey(o.ops[id].kind, key) && !o.ops[id].phase.Waiting?
    requires o.ops[id].phase.Done? ==> forall i | i in o.ops :: i <= id
    requires OwnTags(o.ops[id].kind, tags)
    ensures StoreOk(d.store[key := Entry(Explicit(id), tags)], asks, d.applied + {id}, o)
  {
    forall k | k in d.store && k != key ensures EntryOk(k, d.store[k], asks, d.applied + {id}, o) {
      assert EntryOk(k, d.store[k], asks, d.applied, o);
    }
    NothingOvertakes(id, key, tags, d.applied, o);
    hide Ordered, AppliedOk;
  }

  /** Whatever must follow an operation on a key has not been applied before that operation finishes. */
  lemma NothingOvertakes(id: nat, key: Key, tags: set<Tag>, applied: set<nat>, o: Ops)
    requires AppliedOk(applied, o) && Ordered(o) && Remembered(id, applied, o)
    requires id in o.ops && OnKey(o.ops[id].kind, key)
    requires o.ops[id].phase.Done? ==> forall i | i in o.ops :: i <= id
    requires OwnTags(o.ops[id].kind, tags)
    ensures ExplicitOk(key, id, tags, applied + {id}, o)
  {
  }

  /** An operation that only removes records. */
  lemma RemoveRecords(d: Disk, id: nat, kind: Kind, asks: map<nat, Ask>, o: Ops)
    requires DiskInv(d, asks, o) && id in o.ops && o.ops[id].kind == kind && !o.ops[id].phase.Waiting?
    requires kind.Delete? || kind.Invalidate?
    ensures DiskInv(d.(store := Changed(d.store, id, kind), applied := d.applied + {id}), asks, o)
  {
    FewerClears(d, Changed(d.store, id, kind), id, o);
    RemoveStore(d, id, kind, asks, o);
    hide StoreOk, ClearsOk, ClosedOk, WritesOk, Changed;
  }

  lemma RemoveStore(d: Disk, id: nat, kind: Kind, asks: map<nat, Ask>, o: Ops)
    requires StoreOk(d.store, asks, d.applied, o) && id in o.ops && o.ops[id].kind == kind
    requires kind.Delete? || kind.Invalidate?
    ensures StoreOk(Changed(d.store, id, kind), asks, d.applied + {id}, o)
  {
  }

  /** With fewer records, and one more operation applied that is no `clear`. */
  lemma FewerClears(d: Disk, store: map<Key, Entry>, id: nat, o: Ops)
    requires ClearsOk(d, o) && store.Keys <= d.store.Keys && id in o.ops && !o.ops[id].kind.Clear?
    ensures ClearsOk(d.(store := store, applied := d.applied + {id}), o)
  {
  }

  lemma ClearRecords(d: Disk, id: nat, kind: Kind, asks: map<nat, Ask>, o: Ops, was: Ops)
    requires DiskInv(d, asks, o) && id in o.ops && o.ops[id].kind == kind && !o.ops[id].phase.Waiting?
    requires kind == Clear(Returning(was, d.reading)) && Extends(was, o)
    requires forall q | q in o.ops && q < id :: q in was.ops
    ensures DiskInv(d.(store := map[], applied := d.applied + {id}), asks, o)
  {
    var n := d.(store := map[], applied := d.applied + {id});
    forall c, q | c in n.applied && c in o.ops && o.ops[c].kind.Clear? && q in o.ops && q < c
                  && q !in o.ops[c].kind.returning
      ensures Spent(q, n.store, n.reading, o)
    {
      if c == id {
        NotReturning(d.reading, q, o, was);
      } else {
        assert Spent(q, d.store, d.reading, o);
      }
    }
    hide WritesOk, ClosedOk, Extends, Returns;
  }

  lemma NotReturning(reading: map<nat, Option<Entry>>, q: nat, o: Ops, was: Ops)
    requires q in was.ops && q in o.ops && Extends(was, o) && !Returns(was, reading, q)
    ensures Spent(q, map[], reading, o)
  {
  }

  lemma EffectInv(d: Disk, id: nat, kind: Kind, works: bool, asks: map<nat, Ask>, o: Ops)
    requires DiskInv(d, asks, o) && Ordered(o) && id in o.ops && o.ops[id].kind == kind && Mutates(kind)
    requires o.ops[id].phase.Done? ==> forall i | i in o.ops :: i <= id
    requires !o.ops[id].phase.Waiting?
    requires kind.Store? || (kind.Update? && kind.key in d.store) ==> Remembered(id, d.applied, o)
    ensures DiskInv(Effect(d, id, kind, works), asks, o)
  {
    if kind.Update? {
      ReadRecord(d, id, kind.key, asks, o);
    } else if works {
      if kind.Store? {
        PutRecords(d, id, kind.key, kind.tags, asks, o);
      } else {
        RemoveRecords(d, id, kind, asks, o);
      }
    }
    hide DiskInv, Ordered;
  }

  lemma ReadRecord(d: Disk, id: nat, key: Key, asks: map<nat, Ask>, o: Ops)
    requires DiskInv(d, asks, o) && id in o.ops && o.ops[id].kind == Update(key) && !o.ops[id].phase.Waiting?
    requires key in d.store ==> Remembered(id, d.applied, o)
    ensures DiskInv(d.(reading := d.reading[id := Get(d.store, key)]), asks, o)
  {
    hide StoreOk, WritesOk, ClosedOk, AppliedOk;
  }

  lemma RewriteInv(d: Disk, id: nat, key: Key, keep: bool, works: bool, asks: map<nat, Ask>, o: Ops)
    requires DiskInv(d, asks, o) && Ordered(o) && id in d.reading && id in o.ops && o.ops[id].kind == Update(key)
    requires o.ops[id].phase.Done? ==> forall i | i in o.ops :: i <= id
    requires !o.ops[id].phase.Waiting?
    ensures DiskInv(Rewrite(d, id, key, keep, works), asks, o)
  {
    var r := d.(reading := d.reading - {id});
    ForgetReading(d, id, asks, o);
    if d.reading[id].Some? && works {
      ReadRemembered(d, id, key, o);
      if keep {
        PutRecords(r, id, key, d.reading[id].value.tags, asks, o);
      } else {
        DropRecord(r, id, key, asks, o);
      }
    }
    hide DiskInv, Ordered;
  }

  lemma ReadRemembered(d: Disk, id: nat, key: Key, o: Ops)
    requires ClearsOk(d, o) && id in d.reading && d.reading[id].Some? && id in o.ops && o.ops[id].kind == Update(key)
    ensures Remembered(id, d.applied, o)
  {
  }

  lemma ForgetReading(d: Disk, id: nat, asks: map<nat, Ask>, o: Ops)
    requires DiskInv(d, asks, o)
    ensures DiskInv(d.(reading := d.reading - {id}), asks, o)
  {
    hide StoreOk, WritesOk, ClosedOk, AppliedOk;
  }

  lemma DropRecord(d: Disk, id: nat, key: Key, asks: map<nat, Ask>, o: Ops)
    requires DiskInv(d, asks, o) && id in o.ops && o.ops[id].kind == Update(key) && !o.ops[id].phase.Waiting?
    ensures DiskInv(d.(store := d.store - {key}, applied := d.applied + {id}), asks, o)
  {
    FewerClears(d, d.store - {key}, id, o);
    hide ClearsOk, ClosedOk, WritesOk;
  }

  // ---------- Requests write ----------

  /** Only a request whose token is current writes, so nothing that concerns it was issued after it. */
  lemma CurrentWrite(c: Core, id: nat)
    requires CoreInv(c) && id in c.asks && IsCurrent(c, c.asks[id])
    ensures WriteOk(Write(c.ops.next, id, c.asks[id].key), c.asks, c.ops)
  {
  }

  lemma DropInv(d: Disk, c: Core, id: nat)
    requires CoreInv(c) && DiskInv(d, c.asks, c.ops) && id in c.asks && IsCurrent(c, c.asks[id])
    ensures DiskInv(Drop(d, c.ops.next, id, c.asks[id].key), c.asks, c.ops)
  {
    CurrentWrite(c, id);
    DropClears(d, c.ops.next, id, c.asks[id].key, c.ops);
    hide CoreInv, WriteOk, EntryOk, AppliedOk, ClosedOk, ClearsOk;
  }

  lemma DropClears(d: Disk, time: nat, id: nat, key: Key, o: Ops)
    requires ClearsOk(d, o)
    ensures ClearsOk(Drop(d, time, id, key), o)
  {
  }

  lemma AnswerFresh(s: Cache, id: nat)
    requires CoreInv(s.core) && AppliedOk(s.disk.applied, s.core.ops)
    requires id in s.core.asks && IsCurrent(s.core, s.core.asks[id])
    requires s.core.asks[id].token in s.core.tokens
    ensures EntryOk(s.core.asks[id].key, EntryOf(s, id), s.core.asks, s.disk.applied, s.core.ops)
  {
  }

  lemma SaveInv(s: Cache, id: nat)
    requires CoreInv(s.core) && DiskInv(s.disk, s.core.asks, s.core.ops) && id in s.core.asks
    requires IsCurrent(s.core, s.core.asks[id]) && s.core.asks[id].token in s.core.tokens
    requires Quiet(s.core.ops, s.core.asks[id].key)
    ensures DiskInv(Save(s.disk, s.core.ops.next, id, s.core.asks[id].key, EntryOf(s, id)), s.core.asks, s.core.ops)
  {
    CurrentWrite(s.core, id);
    AnswerFresh(s, id);
    SaveClears(s.disk, s.core.asks[id].key, EntryOf(s, id), s.core.ops);
    hide CoreInv, WriteOk, EntryOk, AppliedOk, ClearsOk, ClosedOk, EntryOf, Quiet;
  }

  lemma SaveClears(d: Disk, key: Key, entry: Entry, o: Ops)
    requires ClearsOk(d, o) && Quiet(o, key)
    ensures ClearsOk(d.(store := d.store[key := entry]), o)
  {
  }

  // ---------- Every step ----------

  lemma AcquireDisk(s: Cache, i: nat, key: Key, tags: set<Tag>, raw: bool)
    requires CoreInv(s.core) && DiskInv(s.disk, s.core.asks, s.core.ops)
    ensures var n := Acquire(s.core, i, key, tags, raw); DiskInv(s.disk, n.asks, n.ops)
  {
    hide CoreInv, DiskInv, Numbered, Tracked, Issue, Extends;
    var c := s.core;
    var n := Acquire(c, i, key, tags, raw);
    CoreNumbered(c);
    IssueExtends(c.ops, Read(key, tags), false);
    FreshAsk(c);
    DiskStays(s.disk, c.asks, n.asks, c.ops, n.ops);
  }

  lemma MutateDisk(s: Cache, kind: Kind, sync: bool, works: bool, keep: bool)
    requires CoreInv(s.core) && DiskInv(s.disk, s.core.asks, s.core.ops) && Enabled(s, DoMutate(kind, sync, works, keep))
    ensures var n := Mutate(s, kind, sync, works, keep); DiskInv(n.disk, n.core.asks, n.core.ops)
  {
    hide CoreInv, DiskInv, Numbered, Tracked, TrackedKeys, WaitsEnough, Issue, Extends, Waits, Doomed, Ordered,
         Effect, Rewrite;
    var o, id := s.core.ops, s.core.ops.next;
    var n := Issue(o, kind, sync);
    CoreNumbered(s.core);
    IssueExtends(o, kind, sync);
    IssueInv(o, kind, sync);
    IssuedLast(o, kind, sync);
    DiskStays(s.disk, s.core.asks, s.core.asks, o, n);
    if Waits(o, kind) == {} {
      NewestRemembered(s.disk, id, n);
      EffectsInv(s.disk, id, kind, sync, works, keep, s.core.asks, n);
    }
  }

  lemma EffectsInv(d: Disk, id: nat, kind: Kind, sync: bool, works: bool, keep: bool, asks: map<nat, Ask>, o: Ops)
    requires DiskInv(d, asks, o) && Ordered(o) && id in o.ops && o.ops[id].kind == kind && Mutates(kind)
    requires (forall i | i in o.ops :: i <= id) && !o.ops[id].phase.Waiting? && Remembered(id, d.applied, o)
    ensures DiskInv(Effects(d, id, kind, sync, works, keep), asks, o)
  {
    hide DiskInv, Effect, Rewrite, Ordered, Remembered;
    EffectInv(d, id, kind, works, asks, o);
    if kind.Update? && sync {
      EffectReads(d, id, kind, works);
      RewriteInv(Effect(d, id, kind, works), id, kind.key, keep, works, asks, o);
    }
  }

  lemma NewestRemembered(d: Disk, id: nat, o: Ops)
    requires forall i | i in o.ops :: i <= id
    ensures Remembered(id, d.applied, o)
  {
  }

  lemma EffectReads(d: Disk, id: nat, kind: Kind, works: bool)
    ensures kind.Update? ==> id in Effect(d, id, kind, works).reading
  {
  }

  lemma IssuedLast(o: Ops, kind: Kind, sync: bool)
    requires OpsInv(o)
    ensures var n := Issue(o, kind, sync);
            && (forall i | i in n.ops :: i <= o.next)
            && o.next in n.ops && n.ops[o.next].kind == kind && (n.ops[o.next].phase.Waiting? <==> Waits(o, kind) != {})
  {
  }

  lemma ClearDisk(s: Cache, works: bool)
    requires CoreInv(s.core) && DiskInv(s.disk, s.core.asks, s.core.ops)
    ensures var n := Clearing(s, works); DiskInv(n.disk, n.core.asks, n.core.ops)
  {
    hide CoreInv, DiskInv, Numbered, Tracked, WaitsEnough, Issue, Extends, Waits, Returning, Ordered;
    var o, id, kind := s.core.ops, s.core.ops.next, Clear(Returning(s.core.ops, s.disk.reading));
    var n := Issue(o, kind, true);
    CoreNumbered(s.core);
    IssueExtends(o, kind, true);
    IssueInv(o, kind, true);
    IssuedLast(o, kind, true);
    ClearWaits(o, kind);
    DiskStays(s.disk, s.core.asks, s.core.asks, o, n);
    OldOnes(o, kind);
    ClearRecords(s.disk, id, kind, s.core.asks, n, o);
  }

  lemma ClearWaits(o: Ops, kind: Kind)
    requires kind.Clear?
    ensures Waits(o, kind) == {}
  {
  }

  lemma OldOnes(o: Ops, kind: Kind)
    requires Numbered(o)
    ensures forall q | q in Issue(o, kind, true).ops && q < o.next :: q in o.ops
  {
    TrackOps(o, kind, true);
    hide Issue;
  }

  lemma StartDisk(s: Cache, id: nat)
    requires CoreInv(s.core) && DiskInv(s.disk, s.core.asks, s.core.ops) && Ready(s.core.ops, id)
    ensures OpsInv(Start(s.core.ops, id)) && DiskInv(s.disk, s.core.asks, Start(s.core.ops, id))
  {
    OpsNumbered(s.core.ops);
    StartExtends(s.core.ops, id);
    hide CoreInv, OpsInv, DiskInv, Numbered, Tracked, Start, Ready, Extends;
    DiskStays(s.disk, s.core.asks, s.core.asks, s.core.ops, Start(s.core.ops, id));
  }

  lemma BeginDisk(s: Cache, id: nat, works: bool)
    requires CoreInv(s.core) && DiskInv(s.disk, s.core.asks, s.core.ops) && Enabled(s, DoBegin(id, works))
    ensures var n := Begin(s, id, works); DiskInv(n.disk, n.core.asks, n.core.ops)
  {
    assert id in s.core.ops.ops;
    hide CoreInv, DiskInv, OpsInv, Ordered, Effect, Remembered, Ready, Mutates, ClearsOk;
    StartDisk(s, id);
    InvParts(s.disk, s.core.asks, s.core.ops);
    BeginRemembered(s.disk, id, s.core.ops);
    OpsOrdered(Start(s.core.ops, id));
    EffectInv(s.disk, id, s.core.ops.ops[id].kind, works, s.core.asks, Start(s.core.ops, id));
  }

  lemma InvParts(d: Disk, asks: map<nat, Ask>, o: Ops)
    requires DiskInv(d, asks, o)
    ensures ClearsOk(d, o)
  {
  }

  lemma OpsOrdered(o: Ops)
    requires OpsInv(o)
    ensures Ordered(o)
  {
  }

  /** A `set` that starts, or an `update` that finds a record, is remembered by every `clear` it outlived. */
  lemma BeginRemembered(d: Disk, id: nat, o: Ops)
    requires ClearsOk(d, o) && Ready(o, id)
    ensures id in Start(o, id).ops && Start(o, id).ops[id].kind == o.ops[id].kind && Start(o, id).ops[id].phase.Running?
    ensures var kind := o.ops[id].kind;
            kind.Store? || (kind.Update? && kind.key in d.store) ==> Remembered(id, d.applied, Start(o, id))
  {
  }

  lemma FinishDisk(s: Cache, id: nat)
    requires CoreInv(s.core) && DiskInv(s.disk, s.core.asks, s.core.ops)
    requires id in s.core.ops.ops && s.core.ops.ops[id].phase.Running?
    ensures DiskInv(s.disk, s.core.asks, Finish(s.core.ops, id))
  {
    OpsNumbered(s.core.ops);
    FinishExtends(s.core.ops, id);
    hide CoreInv, OpsInv, DiskInv, Numbered, Tracked, Finish, Extends;
    DiskStays(s.disk, s.core.asks, s.core.asks, s.core.ops, Finish(s.core.ops, id));
  }

  lemma RewriteDisk(s: Cache, id: nat, keep: bool, works: bool)
    requires CoreInv(s.core) && DiskInv(s.disk, s.core.asks, s.core.ops) && Updating(s, id)
    ensures DiskInv(Rewrite(s.disk, id, s.core.ops.ops[id].kind.key, keep, works), s.core.asks, s.core.ops)
  {
    hide DiskInv, Numbered, Tracked, WaitsEnough, Rewrite, Ordered, AsksOk, CurrentOk, GenerationOk, Counted, Fence;
    RewriteInv(s.disk, id, s.core.ops.ops[id].kind.key, keep, works, s.core.asks, s.core.ops);
  }

  lemma RespondDisk(s: Cache, id: nat, answer: Answer)
    requires CoreInv(s.core) && DiskInv(s.disk, s.core.asks, s.core.ops) && Acts(s, id)
    requires !s.core.ops.ops[id].phase.Waiting?
    ensures DiskInv(Respond(s, id, answer).disk, s.core.asks, s.core.ops)
  {
    hide CoreInv, DiskInv, IsCurrent, EntryOf, Drop, Save, Mark, Complete, Quiet;
    if IsCurrent(s.core, s.core.asks[id]) {
      DropInv(s.disk, s.core, id);
      QuietKey(s.core, id);
      SaveInv(s, id);
    }
  }

  lemma HandleDisk(s: Cache, id: nat, verdict: Verdict)
    requires CoreInv(s.core) && DiskInv(s.disk, s.core.asks, s.core.ops) && Enabled(s, DoHandle(id, verdict))
    ensures DiskInv(Handle(s, id, verdict).disk, s.core.asks, s.core.ops)
  {
    hide CoreInv, DiskInv, IsCurrent, Drop;
    if IsCurrent(s.core, s.core.asks[id]) {
      DropInv(s.disk, s.core, id);
    }
  }

  lemma StepDisk(s: Cache, e: Event)
    requires CoreInv(s.core) && DiskInv(s.disk, s.core.asks, s.core.ops) && Enabled(s, e)
    requires StagesOk(s.work.stages, s.core.ops)
    ensures var n := Step(s, e); DiskInv(n.disk, n.core.asks, n.core.ops)
  {
    hide CoreInv, DiskInv, Acquire, Release, Begin, Finish, Start, Ready, Rewrite, Handle, Respond, Mutate, Clearing;
    match e
    case DoRequest(i, key, tags, raw) => AcquireDisk(s, i, key, tags, raw);
    case DoLook(id) =>
      if s.core.ops.ops[id].phase.Waiting? {
        StartDisk(s, id);
      }
    case DoHandle(id, verdict) => HandleDisk(s, id, verdict); HandleCore(s, id, verdict);
    case DoRespond(id, answer) => RespondDisk(s, id, answer); RespondCore(s, id, answer);
    case DoSettle(id, _) => ReleaseSame(s.core, id);
    case DoMutate(kind, sync, works, keep) => MutateDisk(s, kind, sync, works, keep);
    case DoClear(works) => ClearDisk(s, works);
    case DoBegin(id, works) => BeginDisk(s, id, works);
    case DoRewrite(id, keep, works) => RewriteDisk(s, id, keep, works);
    case DoFinish(id) => FinishDisk(s, id);
    case _ =>
  }

  lemma HandleCore(s: Cache, id: nat, verdict: Verdict)
    requires id in s.core.asks && id in s.work.stages && s.work.stages[id].Looked?
    ensures Handle(s, id, verdict).core == s.core
  {
  }

  lemma RespondCore(s: Cache, id: nat, answer: Answer)
    requires id in s.core.asks && s.core.asks[id].token in s.core.tokens
    ensures Respond(s, id, answer).core == s.core
  {
  }

  lemma ReleaseSame(c: Core, id: nat)
    requires id in c.asks && c.asks[id].token in c.tokens
    ensures Release(c, id).asks == c.asks && Release(c, id).ops == c.ops
  {
  }

  lemma EmptyDisk()
    ensures DiskInv(EMPTY.disk, EMPTY.core.asks, EMPTY.core.ops)
  {
  }
}
