/** Progress of explicit operations: each can be finished, and some can still put a record after a `clear`. */
module CacheReturns {
  import opened Collections
  import opened CacheOperations
  import opened CacheProtocol
  import opened CacheFence
  import opened CacheFreshness
  import opened CacheGuarantees

  // ---------- Runs after runs ----------

  lemma {:induction false} RunConcat(s: Cache, a: seq<Event>, b: seq<Event>)
    requires Allowed(s, a) && Allowed(Run(s, a), b)
    ensures Allowed(s, a + b) && Run(s, a + b) == Run(Run(s, a), b)
    decreases |a|
  {
    hide Enabled, Step;
    if a == [] {
      assert a + b == b;
    } else {
      assert (a + b)[0] == a[0] && (a + b)[1..] == a[1..] + b;
      RunConcat(Step(s, a[0]), a[1..], b);
    }
  }

  lemma RunOne(s: Cache, e: Event)
    requires Enabled(s, e)
    ensures Allowed(s, [e]) && Run(s, [e]) == Step(s, e)
  {
    hide Enabled, Step;
    assert [e][1..] == [];
    assert Allowed(Step(s, e), []);
  }

  // ---------- Finishing operations without touching the store ----------

  /** Operations have moved on, the store is as it was, and nothing issued after `i` has changed. */
  ghost predicate Quietly(s: Cache, n: Cache, i: nat) {
    && n.disk.store == s.disk.store && Later(s.core.ops, n.core.ops)
    && forall j | j in s.core.ops.ops && j > i :: Untouched(s, n, j)
  }

  ghost predicate Untouched(s: Cache, n: Cache, j: nat) {
    && j in s.core.ops.ops && j in n.core.ops.ops && n.core.ops.ops[j] == s.core.ops.ops[j]
    && (j in n.disk.reading <==> j in s.disk.reading)
    && (j in s.disk.reading ==> n.disk.reading[j] == s.disk.reading[j])
  }

  lemma QuietlyTwice(s: Cache, m: Cache, n: Cache, i: nat, j: nat)
    requires Quietly(s, m, i) && Quietly(m, n, j)
    ensures Quietly(s, n, if i < j then j else i)
  {
  }

  ghost predicate Follows(s: Cache, events: seq<Event>, n: Cache) {
    CacheInv(s) && Allowed(s, events) && n == Run(s, events) && CacheInv(n)
  }

  lemma FollowOne(s: Cache, e: Event)
    requires CacheInv(s) && Enabled(s, e)
    ensures Follows(s, [e], Step(s, e))
  {
    hide CacheInv, Enabled, Step;
    RunOne(s, e);
    StepCache(s, e);
  }

  lemma FollowTwo(s: Cache, a: seq<Event>, m: Cache, b: seq<Event>, n: Cache)
    requires Follows(s, a, m) && Follows(m, b, n)
    ensures Follows(s, a + b, n)
  {
    hide CacheInv;
    RunConcat(s, a, b);
  }

  lemma FollowNone(s: Cache)
    requires CacheInv(s)
    ensures Follows(s, [], s)
  {
    hide CacheInv;
  }

  ghost function Unfinisheds(o: Ops, i: nat): set<nat>
    requires i in o.ops
  {
    set w | w in o.ops[i].waits && w in o.ops && !o.ops[w].phase.Done?
  }

  lemma FewerUnfinished(o: Ops, n: Ops, i: nat, w: nat)
    requires Later(o, n) && i in o.ops && w in Unfinisheds(o, i) && n.ops[w].phase.Done?
    ensures |Unfinisheds(n, i)| < |Unfinisheds(o, i)|
  {
    var a, b := Unfinisheds(n, i), Unfinisheds(o, i);
    assert a <= b - {w};
    assert b == a + (b - a) && w in b - a;
  }

  /** Operations before `i` have moved on; the store and everything from `i` on are as they were. */
  ghost predicate WayCleared(s: Cache, n: Cache, i: nat) {
    && n.disk.store == s.disk.store && Later(s.core.ops, n.core.ops)
    && forall j | j in s.core.ops.ops && j >= i :: Untouched(s, n, j)
  }

  lemma WayFirst(s: Cache, m: Cache, n: Cache, w: nat, i: nat)
    requires Quietly(s, m, w) && w < i && WayCleared(m, n, i)
    ensures WayCleared(s, n, i)
  {
  }

  lemma StillWaits(s: Cache, m: Cache, w: nat, i: nat)
    requires Quietly(s, m, w) && w < i && i in s.core.ops.ops
    ensures i in m.core.ops.ops && m.core.ops.ops[i] == s.core.ops.ops[i] && Later(s.core.ops, m.core.ops)
  {
  }

  lemma NothingLeft(o: Ops, i: nat)
    requires i in o.ops && o.ops[i].phase.Waiting? && WaitsEarlier(o, i) && Unfinisheds(o, i) == {}
    ensures Ready(o, i)
  {
    forall w | w in o.ops[i].waits ensures w in o.ops && o.ops[w].phase.Done? {
      assert w !in Unfinisheds(o, i);
    }
  }

  lemma AsItWas(s: Cache, i: nat)
    ensures WayCleared(s, s, i)
  {
  }

  /** Everything a waiting operation waits for is finished. */
  lemma {:induction false} ClearTheWay(s: Cache, i: nat) returns (events: seq<Event>, n: Cache)
    requires CacheInv(s) && i in s.core.ops.ops && s.core.ops.ops[i].phase.Waiting?
    ensures Follows(s, events, n) && Ready(n.core.ops, i) && WayCleared(s, n, i)
    decreases i, 0, |Unfinisheds(s.core.ops, i)|
  {
    WaitsOf(s, i);
    hide CacheInv, Follows, WayCleared, Quietly, Ready, Later;
    if Unfinisheds(s.core.ops, i) != {} {
      var w :| w in Unfinisheds(s.core.ops, i);
      var first, m := FinishQuietly(s, w);
      StillWaits(s, m, w, i);
      FewerUnfinished(s.core.ops, m.core.ops, i, w);
      Ends(s, first, m);
      var rest;
      rest, n := ClearTheWay(m, i);
      FollowTwo(s, first, m, rest, n);
      WayFirst(s, m, n, w, i);
      events := first + rest;
    } else {
      events, n := [], s;
      FollowNone(s);
      NothingLeft(s.core.ops, i);
      AsItWas(s, i);
    }
  }

  lemma Ends(s: Cache, events: seq<Event>, n: Cache)
    requires Follows(s, events, n)
    ensures CacheInv(n)
  {
    hide CacheInv, Run, Allowed;
  }

  lemma WaitsOf(s: Cache, i: nat)
    requires CacheInv(s) && i in s.core.ops.ops
    ensures WaitsEarlier(s.core.ops, i)
  {
  }

  /** Every unfinished mutation can be finished, even without any change of the store. */
  lemma {:induction false} FinishQuietly(s: Cache, i: nat) returns (events: seq<Event>, n: Cache)
    requires CacheInv(s) && i in s.core.ops.ops && Mutates(s.core.ops.ops[i].kind) && !s.core.ops.ops[i].phase.Done?
    ensures Follows(s, events, n) && Quietly(s, n, i) && n.core.ops.ops[i].phase.Done?
    decreases i, 1
  {
    hide CacheInv, Follows, WayCleared, Quietly, Ready;
    if s.core.ops.ops[i].phase.Waiting? {
      var way, m := ClearTheWay(s, i);
      Ends(s, way, m);
      WayKinds(s, m, i);
      var start, k := BeginQuietly(m, i);
      Ends(m, start, k);
      StillKind(m, k, i);
      var end, z := EndQuietly(k, i);
      FollowTwo(s, way, m, start, k);
      FollowTwo(s, way + start, k, end, z);
      QuietlyTwice(m, k, z, i, i);
      QuietlyTwice(s, m, z, i, i);
      events, n := way + start + end, z;
    } else {
      events, n := EndQuietly(s, i);
    }
  }

  lemma WayKinds(s: Cache, m: Cache, i: nat)
    requires WayCleared(s, m, i) && i in s.core.ops.ops
    ensures Quietly(s, m, i) && i in m.core.ops.ops && m.core.ops.ops[i] == s.core.ops.ops[i]
  {
  }

  lemma StillKind(s: Cache, n: Cache, i: nat)
    requires Quietly(s, n, i) && i in s.core.ops.ops
    ensures i in n.core.ops.ops && n.core.ops.ops[i].kind == s.core.ops.ops[i].kind
  {
  }

  lemma BeginQuietly(s: Cache, i: nat) returns (events: seq<Event>, n: Cache)
    requires CacheInv(s) && Ready(s.core.ops, i) && Mutates(s.core.ops.ops[i].kind)
    ensures Follows(s, events, n) && Quietly(s, n, i) && i in n.core.ops.ops && n.core.ops.ops[i].phase.Running?
  {
    events, n := [DoBegin(i, false)], Step(s, DoBegin(i, false));
    FollowOne(s, DoBegin(i, false));
    BegunQuietly(s, i);
    hide *;
  }

  lemma BegunQuietly(s: Cache, i: nat)
    requires Ready(s.core.ops, i) && Mutates(s.core.ops.ops[i].kind)
    ensures var n := Step(s, DoBegin(i, false));
            Quietly(s, n, i) && i in n.core.ops.ops && n.core.ops.ops[i].phase.Running?
  {
  }

  lemma EndQuietly(s: Cache, i: nat) returns (events: seq<Event>, n: Cache)
    requires CacheInv(s) && i in s.core.ops.ops && Mutates(s.core.ops.ops[i].kind) && s.core.ops.ops[i].phase.Running?
    ensures Follows(s, events, n) && Quietly(s, n, i) && i in n.core.ops.ops && n.core.ops.ops[i].phase.Done?
  {
    hide CacheInv, Follows, Quietly, Step, Updating;
    if i in s.disk.reading {
      ReadingUpdates(s, i);
      RewrittenQuietly(s, i);
      var m := Step(s, DoRewrite(i, false, false));
      FollowOne(s, DoRewrite(i, false, false));
      Ends(s, [DoRewrite(i, false, false)], m);
      n := Step(m, DoFinish(i));
      FollowOne(m, DoFinish(i));
      FinishedQuietly(m, i);
      FollowTwo(s, [DoRewrite(i, false, false)], m, [DoFinish(i)], n);
      events := [DoRewrite(i, false, false)] + [DoFinish(i)];
      QuietlyTwice(s, m, n, i, i);
    } else {
      events, n := [DoFinish(i)], Step(s, DoFinish(i));
      FollowOne(s, DoFinish(i));
      FinishedQuietly(s, i);
    }
  }

  lemma ReadingUpdates(s: Cache, i: nat)
    requires CacheInv(s) && i in s.disk.reading
    ensures Updating(s, i)
  {
    hide CoreInv, DiskInv, StagesOk;
  }

  lemma RewrittenQuietly(s: Cache, i: nat)
    requires Updating(s, i)
    ensures var n := Step(s, DoRewrite(i, false, false));
            Quietly(s, n, i) && n.core == s.core && i !in n.disk.reading && Enabled(n, DoFinish(i))
  {
  }

  lemma FinishedQuietly(s: Cache, i: nat)
    requires Enabled(s, DoFinish(i))
    ensures var n := Step(s, DoFinish(i));
            Quietly(s, n, i) && i in n.core.ops.ops && n.core.ops.ops[i].phase.Done?
  {
  }

  // ---------- What can return after a clear ----------

  ghost predicate HasPut(n: Cache, q: nat) {
    exists key :: PutAt(n, q, key)
  }

  /** From `s` the events put a record of the operation. */
  ghost predicate PutBy(s: Cache, events: seq<Event>, q: nat) {
    Allowed(s, events) && HasPut(Run(s, events), q)
  }

  ghost predicate PutAt(n: Cache, q: nat, key: Key) {
    key in n.disk.store && n.disk.store[key].origin == Explicit(q)
  }

  /** Operations have moved on, those after `p` have not. */
  ghost predicate MovedOn(s: Cache, n: Cache, p: nat) {
    Later(s.core.ops, n.core.ops) && forall j | j in s.core.ops.ops && j > p :: Untouched(s, n, j)
  }

  lemma MovedOnAfter(s: Cache, m: Cache, n: Cache, p: nat)
    requires WayCleared(s, m, p) && MovedOn(m, n, p)
    ensures MovedOn(s, n, p)
  {
  }

  /** A `set` that still waits, or an `update` that has read a record, can put it. */
  lemma PutsRecord(s: Cache, p: nat) returns (events: seq<Event>, n: Cache)
    requires CacheInv(s) && Puts(s.core.ops, s.disk.reading, p)
    ensures Follows(s, events, n) && PutAt(n, p, s.core.ops.ops[p].kind.key) && MovedOn(s, n, p)
  {
    hide CacheInv, Follows, WayCleared, MovedOn, Ready, PutAt, Step, Updating;
    if s.core.ops.ops[p].kind.Store? {
      var way, m := ClearTheWay(s, p);
      Ends(s, way, m);
      WayKinds(s, m, p);
      hide Quietly;
      n := Step(m, DoBegin(p, true));
      FollowOne(m, DoBegin(p, true));
      FollowTwo(s, way, m, [DoBegin(p, true)], n);
      events := way + [DoBegin(p, true)];
      BegunStore(m, p);
      MovedOnAfter(s, m, n, p);
    } else {
      ReadingUpdates(s, p);
      RewrittenUpdate(s, p);
      events, n := [DoRewrite(p, true, true)], Step(s, DoRewrite(p, true, true));
      FollowOne(s, DoRewrite(p, true, true));
    }
  }

  lemma BegunStore(m: Cache, p: nat)
    requires Ready(m.core.ops, p) && m.core.ops.ops[p].kind.Store?
    ensures Enabled(m, DoBegin(p, true))
    ensures var n := Step(m, DoBegin(p, true)); PutAt(n, p, m.core.ops.ops[p].kind.key) && MovedOn(m, n, p)
  {
  }

  lemma RewrittenUpdate(s: Cache, p: nat)
    requires Updating(s, p) && s.disk.reading[p].Some?
    ensures Enabled(s, DoRewrite(p, true, true))
    ensures var n := Step(s, DoRewrite(p, true, true)); PutAt(n, p, s.core.ops.ops[p].kind.key) && MovedOn(s, n, p)
  {
  }

  /** A waiting `update` puts what it finds, if there is a record. */
  lemma UpdatePuts(s: Cache, q: nat) returns (events: seq<Event>, n: Cache)
    requires CacheInv(s) && q in s.core.ops.ops && s.core.ops.ops[q].kind.Update? && s.core.ops.ops[q].phase.Waiting?
    requires s.core.ops.ops[q].kind.key in s.disk.store
    ensures Follows(s, events, n) && PutAt(n, q, s.core.ops.ops[q].kind.key)
  {
    hide CacheInv, Follows, WayCleared, MovedOn, Ready, PutAt, Step, Updating;
    var way, m := ClearTheWay(s, q);
    Ends(s, way, m);
    WayKinds(s, m, q);
    WayStore(s, m, q);
    hide Quietly;
    BegunUpdate(m, q);
    var k := Step(m, DoBegin(q, true));
    FollowOne(m, DoBegin(q, true));
    FollowTwo(s, way, m, [DoBegin(q, true)], k);
    Ends(m, [DoBegin(q, true)], k);
    RewrittenUpdate(k, q);
    n := Step(k, DoRewrite(q, true, true));
    FollowOne(k, DoRewrite(q, true, true));
    FollowTwo(s, way + [DoBegin(q, true)], k, [DoRewrite(q, true, true)], n);
    events := way + [DoBegin(q, true)] + [DoRewrite(q, true, true)];
  }

  lemma WayStore(s: Cache, m: Cache, i: nat)
    requires WayCleared(s, m, i)
    ensures m.disk.store == s.disk.store
  {
  }

  lemma BegunUpdate(m: Cache, q: nat)
    requires Ready(m.core.ops, q) && m.core.ops.ops[q].kind.Update? && m.core.ops.ops[q].kind.key in m.disk.store
    ensures Enabled(m, DoBegin(q, true))
    ensures var k := Step(m, DoBegin(q, true));
            Updating(k, q) && k.disk.reading[q].Some? && k.core.ops.ops[q].kind == m.core.ops.ops[q].kind
  {
  }

  /** What a `clear` remembers can put a record after it. */
  lemma ReturnsAfterClear(s: Cache, q: nat) returns (events: seq<Event>)
    requires CacheInv(s) && q in Returning(s.core.ops, s.disk.reading)
    ensures PutBy(Clearing(s, true), events, q)
  {
    ClearInv(s);
    ClearKeeps(s);
    if Puts(s.core.ops, s.disk.reading, q) {
      events := PutShown(Clearing(s, true), q);
    } else {
      var p :| p in s.core.ops.ops && p < q && Puts(s.core.ops, s.disk.reading, p)
               && s.core.ops.ops[p].kind.key == s.core.ops.ops[q].kind.key;
      events := BehindShown(Clearing(s, true), p, q);
    }
    hide *;
  }

  lemma ClearInv(s: Cache)
    requires CacheInv(s)
    ensures CacheInv(Clearing(s, true))
  {
    hide CacheInv, Clearing;
    StepCache(s, DoClear(true));
  }

  lemma PutShown(c: Cache, q: nat) returns (events: seq<Event>)
    requires CacheInv(c) && Puts(c.core.ops, c.disk.reading, q)
    ensures PutBy(c, events, q)
  {
    var n;
    events, n := PutsRecord(c, q);
    hide CacheInv, MovedOn;
    Shown(n, q, c.core.ops.ops[q].kind.key);
  }

  lemma BehindShown(c: Cache, p: nat, q: nat) returns (events: seq<Event>)
    requires CacheInv(c) && Puts(c.core.ops, c.disk.reading, p) && p < q
    requires q in c.core.ops.ops && c.core.ops.ops[q].kind.Update? && c.core.ops.ops[q].phase.Waiting?
    requires c.core.ops.ops[p].kind.key == c.core.ops.ops[q].kind.key
    ensures PutBy(c, events, q)
  {
    hide CacheInv, Follows;
    var first, m := PutsRecord(c, p);
    Ends(c, first, m);
    var rest, n := UpdatePuts(m, q);
    FollowTwo(c, first, m, rest, n);
    events := first + rest;
    Shown(n, q, c.core.ops.ops[q].kind.key);
    Reaches(c, events, n);
  }

  lemma Reaches(s: Cache, events: seq<Event>, n: Cache)
    requires Follows(s, events, n)
    ensures Allowed(s, events) && Run(s, events) == n
  {
  }

  lemma Shown(n: Cache, q: nat, key: Key)
    requires PutAt(n, q, key)
    ensures HasPut(n, q)
  {
  }

  /** `clear` itself moves no earlier operation. */
  lemma ClearKeeps(s: Cache)
    requires CacheInv(s)
    ensures var c := Clearing(s, true);
            && c.disk.reading == s.disk.reading
            && s.core.ops.next in c.core.ops.ops && s.core.ops.next in c.disk.applied
            && c.core.ops.ops[s.core.ops.next].kind == Clear(Returning(s.core.ops, s.disk.reading))
            && (forall q | q in s.core.ops.ops ::
                  q < s.core.ops.next && q in c.core.ops.ops && c.core.ops.ops[q] == s.core.ops.ops[q])
            && (forall p :: Puts(s.core.ops, s.disk.reading, p) ==> Puts(c.core.ops, c.disk.reading, p))
  {
    CoreNumbered(s.core);
    TrackOps(s.core.ops, Clear(Returning(s.core.ops, s.disk.reading)), true);
    hide CacheInv, Issue, Returning;
  }

  // ---------- Exactly these ----------

  /** Applied operations stay applied and operations keep their kind. */
  lemma {:induction false} RunRemembers(s: Cache, events: seq<Event>, c: nat)
    requires CacheInv(s) && Allowed(s, events) && c in s.core.ops.ops && c in s.disk.applied
    ensures var n := Run(s, events);
            c in n.core.ops.ops && c in n.disk.applied && n.core.ops.ops[c].kind == s.core.ops.ops[c].kind
    decreases |events|
  {
    hide CacheInv, Enabled, Step;
    if events != [] {
      StepCache(s, events[0]);
      StepRemembers(s, events[0], c);
      RunRemembers(Step(s, events[0]), events[1..], c);
    }
  }

  lemma StepRemembers(s: Cache, e: Event, c: nat)
    requires CacheInv(s) && Enabled(s, e) && c in s.core.ops.ops && c in s.disk.applied
    ensures var n := Step(s, e);
            c in n.core.ops.ops && c in n.disk.applied && n.core.ops.ops[c].kind == s.core.ops.ops[c].kind
  {
    CoreOf(s);
    StepExtends(s, e);
    AppliedStays(s, e);
    hide CacheInv, CoreInv, Enabled, Step;
  }

  lemma CoreOf(s: Cache)
    requires CacheInv(s)
    ensures CoreInv(s.core) && DiskInv(s.disk, s.core.asks, s.core.ops)
  {
  }

  lemma AppliedStays(s: Cache, e: Event)
    requires Enabled(s, e)
    ensures s.disk.applied <= Step(s, e).disk.applied
  {
    hide Issue, Take, Finish, Start, Ready, Acquire, Outdate, OutdateAll, Release, Land, Abandon, Forget, At, Join, Lead,
         Leave, Changed, IsCurrent, EntryOf, Returning;
  }

  /** Among the operations issued before a `clear` that works, exactly those it remembers can put a record after it:
      a `set` that has not called the store, an `update` that has read a record, and an `update` that waits behind
      one of these. */
  lemma OutlivesClearExactly(s: Cache, q: nat)
    requires CacheInv(s) && q in s.core.ops.ops
    ensures (exists events :: PutBy(Clearing(s, true), events, q)) <==> q in Returning(s.core.ops, s.disk.reading)
  {
    if q in Returning(s.core.ops, s.disk.reading) {
      var events := ReturnsAfterClear(s, q);
    }
    forall events | PutBy(Clearing(s, true), events, q) ensures q in Returning(s.core.ops, s.disk.reading) {
      PutOnlyIfRemembered(s, events, q);
    }
    hide CacheInv, Clearing, Returning;
  }

  lemma PutOnlyIfRemembered(s: Cache, events: seq<Event>, q: nat)
    requires CacheInv(s) && q in s.core.ops.ops && PutBy(Clearing(s, true), events, q)
    ensures q in Returning(s.core.ops, s.disk.reading)
  {
    ClearInv(s);
    ClearKeeps(s);
    PutRemembered(Clearing(s, true), events, q, s.core.ops.next);
    hide *;
  }

  lemma PutRemembered(c: Cache, events: seq<Event>, q: nat, clear: nat)
    requires CacheInv(c) && PutBy(c, events, q) && q < clear
    requires clear in c.core.ops.ops && clear in c.disk.applied && c.core.ops.ops[clear].kind.Clear?
    ensures q in c.core.ops.ops[clear].kind.returning
  {
    hide CacheInv;
    RunInv(c, events);
    RunRemembers(c, events, clear);
    CoreOf(Run(c, events));
    hide Run, Allowed, CoreInv, DiskInv;
    var key :| PutAt(Run(c, events), q, key);
    ExplicitFresh(Run(c, events), key, q, clear);
  }

  lemma ExplicitFresh(n: Cache, key: Key, q: nat, c: nat)
    requires DiskInv(n.disk, n.core.asks, n.core.ops) && PutAt(n, q, key)
    requires c in n.disk.applied && c in n.core.ops.ops && n.core.ops.ops[c].kind.Clear? && q < c
    ensures q in n.core.ops.ops[c].kind.returning
  {
    assert EntryOk(key, n.disk.store[key], n.core.asks, n.disk.applied, n.core.ops);
    hide WritesOk, ClearsOk, ClosedOk;
  }
}
