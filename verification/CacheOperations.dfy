/** The wait graph of explicit cache mutations and cached reads. */
module CacheOperations {
  import InsertionMap

  type Key = InsertionMap.Key

  /** Tags are only ever compared, so they are numbered. */
  type Tag = nat

  /** `Clear` remembers which earlier operations could still put a record into the store when it ran. */
  datatype Kind =
    | Delete(key: Key)
    | Store(key: Key, tags: set<Tag>)
    | Update(key: Key)
    | Invalidate(tags: set<Tag>)
    | Clear(returning: set<nat>)
    | Read(key: Key, tags: set<Tag>)

  datatype Phase = Waiting | Running | Done

  /** `waits` are the promises an operation waits for before it starts. */
  datatype Op = Op(kind: Kind, waits: set<nat>, phase: Phase)

  /** Operations are numbered in the order they are issued. The two maps hold the pending promise of the last
      operation tracked for a key and for a tag. */
  datatype Ops = Ops(next: nat, ops: map<nat, Op>, keyOps: map<Key, nat>, tagOps: map<Tag, nat>)

  predicate OnKey(kind: Kind, key: Key) {
    (kind.Delete? || kind.Store? || kind.Update?) && kind.key == key
  }

  predicate Changes(kind: Kind) {
    kind.Delete? || kind.Store? || kind.Update?
  }

  /** What is tracked, and what others wait for. */
  predicate Mutates(kind: Kind) {
    Changes(kind) || kind.Invalidate?
  }

  // ---------- Steps ----------

  function PendingKeys(s: Ops, kind: Kind): set<nat> {
    match kind
    case Invalidate(_) => s.keyOps.Values
    case Clear(_) => {}
    case _ => if kind.key in s.keyOps then {s.keyOps[kind.key]} else {}
  }

  function PendingTags(s: Ops, kind: Kind): set<nat> {
    match kind
    case Update(_) => s.tagOps.Values
    case Delete(_) => {}
    case Clear(_) => {}
    case _ => set t | t in kind.tags && t in s.tagOps :: s.tagOps[t]
  }

  function Waits(s: Ops, kind: Kind): set<nat> {
    PendingKeys(s, kind) + PendingTags(s, kind)
  }

  function Track(s: Ops, kind: Kind, id: nat): Ops {
    if Changes(kind) then s.(keyOps := s.keyOps[kind.key := id])
    else if kind.Invalidate? then s.(tagOps := s.tagOps + map t | t in kind.tags :: id)
    else s
  }

  /** An operation that waits for nothing starts at once, and is not tracked when the store answers at once. */
  function Issue(s: Ops, kind: Kind, sync: bool): Ops {
    var waits := Waits(s, kind);
    var id := s.next;
    if waits == {} && sync then s.(next := id + 1, ops := s.ops[id := Op(kind, {}, Done)])
    else
      Track(s.(next := id + 1, ops := s.ops[id := Op(kind, waits, if waits == {} then Running else Waiting)]), kind, id)
  }

  predicate Ready(s: Ops, id: nat) {
    id in s.ops && s.ops[id].phase.Waiting? && forall w | w in s.ops[id].waits :: w in s.ops && s.ops[w].phase.Done?
  }

  function Start(s: Ops, id: nat): Ops
    requires Ready(s, id)
  {
    s.(ops := s.ops[id := s.ops[id].(phase := Running)])
  }

  /** The promise of an operation settles: it leaves the maps unless a later one has taken its place. */
  function Finish(s: Ops, id: nat): Ops
    requires id in s.ops
  {
    var kind := s.ops[id].kind;
    s.(ops := s.ops[id := s.ops[id].(phase := Done)],
       keyOps := if Changes(kind) && kind.key in s.keyOps && s.keyOps[kind.key] == id then s.keyOps - {kind.key} else s.keyOps,
       tagOps := if kind.Invalidate? then map t | t in s.tagOps && !(t in kind.tags && s.tagOps[t] == id) :: s.tagOps[t]
                 else s.tagOps)
  }

  // ---------- The order that is promised ----------

  /** Whether an operation or a read must not start before an earlier operation has finished. */
  predicate MustFollow(earlier: Kind, later: Kind) {
    match earlier
    case Invalidate(tags) =>
      later.Update? || ((later.Store? || later.Invalidate? || later.Read?) && later.tags * tags != {})
    case Clear(_) => false
    case Read(_, _) => false
    case _ => later.Invalidate? || ((Changes(later) || later.Read?) && later.key == earlier.key)
  }

  /** Whatever has started, everything it must follow has finished. */
  ghost predicate Ordered(s: Ops) {
    forall i, j | i in s.ops && j in s.ops && i < j && MustFollow(s.ops[i].kind, s.ops[j].kind) ::
      s.ops[j].phase.Waiting? || s.ops[i].phase.Done?
  }

  ghost predicate Covers(s: Ops, w: nat, i: nat) {
    && w in s.ops && i in s.ops
    && (w == i || (i < w && MustFollow(s.ops[i].kind, s.ops[w].kind)))
  }

  ghost predicate Covered(s: Ops, waits: set<nat>, i: nat) {
    exists w | w in waits :: Covers(s, w, i)
  }

  /** An operation that still waits does so, directly or not, for all it must follow. */
  ghost predicate WaitsEnough(s: Ops) {
    forall i, j | i in s.ops && j in s.ops && i < j && MustFollow(s.ops[i].kind, s.ops[j].kind) ::
      s.ops[j].phase.Waiting? && !s.ops[i].phase.Done? ==> Covered(s, s.ops[j].waits, i)
  }

  /** The pending promise found for a key belongs to the last unfinished operation on it, or to a later one. */
  ghost predicate TrackedKeys(s: Ops) {
    && (forall i | i in s.ops && Changes(s.ops[i].kind) && !s.ops[i].phase.Done? ::
          s.ops[i].kind.key in s.keyOps && i <= s.keyOps[s.ops[i].kind.key])
    && (forall k | k in s.keyOps ::
          s.keyOps[k] in s.ops && OnKey(s.ops[s.keyOps[k]].kind, k) && !s.ops[s.keyOps[k]].phase.Done?)
  }

  ghost predicate TrackedTags(s: Ops) {
    && (forall i, t | i in s.ops && s.ops[i].kind.Invalidate? && !s.ops[i].phase.Done? && t in s.ops[i].kind.tags ::
          t in s.tagOps && i <= s.tagOps[t])
    && (forall t | t in s.tagOps ::
          && s.tagOps[t] in s.ops && s.ops[s.tagOps[t]].kind.Invalidate? && t in s.ops[s.tagOps[t]].kind.tags
          && !s.ops[s.tagOps[t]].phase.Done?)
  }

  ghost predicate Tracked(s: Ops) {
    TrackedKeys(s) && TrackedTags(s)
  }

  /** Every wait points to an earlier mutation that must come first, never to a read. */
  ghost predicate WaitsEarlier(s: Ops, i: nat)
    requires i in s.ops
  {
    forall w | w in s.ops[i].waits ::
      w < i && w in s.ops && Mutates(s.ops[w].kind) && MustFollow(s.ops[w].kind, s.ops[i].kind)
  }

  ghost predicate Numbered(s: Ops) {
    && (forall i | i in s.ops :: i < s.next)
    && (forall i | i in s.ops :: WaitsEarlier(s, i))
    && (forall i | i in s.ops && s.ops[i].kind.Invalidate? :: s.ops[i].kind.tags != {})
  }

  ghost predicate OpsInv(s: Ops) {
    Numbered(s) && Tracked(s) && WaitsEnough(s) && Ordered(s)
  }

  // ---------- Every step keeps the order ----------

  /** What a new operation must follow and has not finished is covered by what it waits for. */
  lemma WaitsCover(s: Ops, kind: Kind, i: nat)
    requires Numbered(s) && Tracked(s) && i in s.ops && !s.ops[i].phase.Done? && MustFollow(s.ops[i].kind, kind)
    ensures Covered(s, Waits(s, kind), i)
  {
    var earlier := s.ops[i].kind;
    if Changes(earlier) {
      var w := s.keyOps[earlier.key];
      assert w in s.keyOps.Values;
      assert w in Waits(s, kind) && Covers(s, w, i);
    } else {
      var t :| t in earlier.tags && (kind.Update? || t in kind.tags);
      var w := s.tagOps[t];
      assert w in s.tagOps.Values && t in s.ops[w].kind.tags * earlier.tags;
      assert w in Waits(s, kind) && Covers(s, w, i);
    }
  }

  lemma WaitsKnown(s: Ops, kind: Kind)
    requires Numbered(s) && Tracked(s)
    ensures forall w | w in Waits(s, kind) ::
              w in s.ops && w < s.next && Mutates(s.ops[w].kind) && MustFollow(s.ops[w].kind, kind) && !s.ops[w].phase.Done?
  {
    forall w | w in PendingTags(s, kind) ensures w in s.ops && MustFollow(s.ops[w].kind, kind) {
      var t :| t in s.tagOps && s.tagOps[t] == w && (kind.Update? || t in kind.tags);
      assert t in s.ops[w].kind.tags;
      assert kind.Update? || t in kind.tags * s.ops[w].kind.tags;
    }
  }

  /** An operation or a read starts at once if and only if everything it must follow has finished, and waits only for
      what it must follow and has not finished. */
  lemma StartsExactly(s: Ops, kind: Kind, sync: bool)
    requires OpsInv(s)
    ensures var n := Issue(s, kind, sync);
            && s.next in n.ops && n.ops[s.next].kind == kind
            && (!n.ops[s.next].phase.Waiting? <==>
                  forall i | i in s.ops && MustFollow(s.ops[i].kind, kind) :: s.ops[i].phase.Done?)
            && (!n.ops[s.next].phase.Waiting? ==> n.ops[s.next].phase == if sync then Done else Running)
            && (forall i | i in s.ops :: n.ops[i] == s.ops[i])
            && forall w | w in n.ops[s.next].waits ::
                 w in s.ops && MustFollow(s.ops[w].kind, kind) && !s.ops[w].phase.Done?
  {
    hide Issue, Waits, MustFollow, TrackedKeys, TrackedTags, WaitsEnough, Ordered;
    TrackOps(s, kind, sync);
    WaitsKnown(s, kind);
    if i :| i in s.ops && MustFollow(s.ops[i].kind, kind) && !s.ops[i].phase.Done? {
      WaitsCover(s, kind, i);
    } else {
      assert Waits(s, kind) == {} by {
        assert forall w | w in Waits(s, kind) :: w in s.ops;
      }
    }
  }

  lemma IssueInv(s: Ops, kind: Kind, sync: bool)
    requires OpsInv(s) && (kind.Invalidate? ==> kind.tags != {})
    ensures OpsInv(Issue(s, kind, sync))
  {
    hide Numbered, Tracked, WaitsEnough, Ordered, Waits, MustFollow, Track;
    IssueNumbered(s, kind, sync);
    IssueTracked(s, kind, sync);
    IssueEnough(s, kind, sync);
    IssueOrdered(s, kind, sync);
  }

  lemma TrackOps(s: Ops, kind: Kind, sync: bool)
    ensures var n := Issue(s, kind, sync);
            && n.next == s.next + 1 && n.ops.Keys == s.ops.Keys + {s.next}
            && (forall i | i in s.ops && i != s.next :: n.ops[i] == s.ops[i])
            && n.ops[s.next].kind == kind && n.ops[s.next].waits == Waits(s, kind)
            && (n.ops[s.next].phase.Waiting? <==> Waits(s, kind) != {})
            && (!n.ops[s.next].phase.Waiting? ==> n.ops[s.next].phase == if sync then Done else Running)
  {
  }

  lemma IssueNumbered(s: Ops, kind: Kind, sync: bool)
    requires Numbered(s) && Tracked(s) && (kind.Invalidate? ==> kind.tags != {})
    ensures Numbered(Issue(s, kind, sync))
  {
    hide Tracked, Issue, Waits;
    WaitsKnown(s, kind);
    TrackOps(s, kind, sync);
  }

  lemma IssueTracked(s: Ops, kind: Kind, sync: bool)
    requires Numbered(s) && Tracked(s)
    ensures Tracked(Issue(s, kind, sync))
  {
    hide Numbered, TrackedKeys, TrackedTags, Issue;
    IssueTrackedKeys(s, kind, sync);
    IssueTrackedTags(s, kind, sync);
  }

  lemma IssueTrackedKeys(s: Ops, kind: Kind, sync: bool)
    requires Numbered(s) && TrackedKeys(s)
    ensures TrackedKeys(Issue(s, kind, sync))
  {
  }

  lemma IssueTrackedTags(s: Ops, kind: Kind, sync: bool)
    requires Numbered(s) && TrackedTags(s)
    ensures TrackedTags(Issue(s, kind, sync))
  {
    hide Waits;
  }

  lemma IssueEnough(s: Ops, kind: Kind, sync: bool)
    requires Numbered(s) && Tracked(s) && WaitsEnough(s)
    ensures WaitsEnough(Issue(s, kind, sync))
  {
    var n := Issue(s, kind, sync);
    forall i | i in s.ops && MustFollow(s.ops[i].kind, kind) && !s.ops[i].phase.Done?
      ensures Covered(s, Waits(s, kind), i)
    {
      WaitsCover(s, kind, i);
    }
    TrackOps(s, kind, sync);
    hide Issue, Waits, MustFollow, Tracked;
    CoveredStill(s, n);
    hide Covered;
  }

  lemma IssueOrdered(s: Ops, kind: Kind, sync: bool)
    requires Numbered(s) && Tracked(s) && Ordered(s)
    ensures Ordered(Issue(s, kind, sync))
  {
    forall i | i in s.ops && MustFollow(s.ops[i].kind, kind) && !s.ops[i].phase.Done? ensures Waits(s, kind) != {} {
      WaitsCover(s, kind, i);
    }
    TrackOps(s, kind, sync);
    hide Issue, Waits, MustFollow, Tracked;
  }

  /** Operations already issued keep covering each other. */
  lemma CoveredStill(s: Ops, n: Ops)
    requires forall i | i in s.ops :: i in n.ops && n.ops[i].kind == s.ops[i].kind
    ensures forall waits, i | Covered(s, waits, i) :: Covered(n, waits, i)
  {
  }

  /** The same operations, some of them further on. */
  ghost predicate Later(s: Ops, n: Ops) {
    && n.next == s.next && n.ops.Keys == s.ops.Keys
    && (forall i | i in s.ops :: n.ops[i].kind == s.ops[i].kind && n.ops[i].waits == s.ops[i].waits)
    && (forall i | i in s.ops :: n.ops[i].phase.Waiting? ==> s.ops[i].phase.Waiting?)
    && (forall i | i in s.ops :: s.ops[i].phase.Done? ==> n.ops[i].phase.Done?)
  }

  lemma LaterNumbered(s: Ops, n: Ops)
    requires Numbered(s) && Later(s, n)
    ensures Numbered(n)
  {
  }

  lemma LaterEnough(s: Ops, n: Ops)
    requires WaitsEnough(s) && Later(s, n)
    ensures WaitsEnough(n)
  {
  }

  lemma StartInv(s: Ops, id: nat)
    requires OpsInv(s) && Ready(s, id)
    ensures OpsInv(Start(s, id))
  {
    hide Numbered, Tracked, WaitsEnough, Ordered, Later;
    StartLater(s, id);
    StartOrdered(s, id);
    LaterNumbered(s, Start(s, id));
    LaterEnough(s, Start(s, id));
  }

  lemma StartLater(s: Ops, id: nat)
    requires Tracked(s) && Ready(s, id)
    ensures Later(s, Start(s, id)) && Tracked(Start(s, id))
  {
  }

  lemma StartOrdered(s: Ops, id: nat)
    requires OpsInv(s) && Ready(s, id)
    ensures Ordered(Start(s, id))
  {
  }

  lemma FinishInv(s: Ops, id: nat)
    requires OpsInv(s) && id in s.ops && s.ops[id].phase.Running?
    ensures OpsInv(Finish(s, id))
  {
    hide Numbered, TrackedKeys, TrackedTags, WaitsEnough, Ordered, Later, Finish;
    FinishKeys(s, id);
    FinishTags(s, id);
    FinishLater(s, id);
    LaterNumbered(s, Finish(s, id));
    LaterEnough(s, Finish(s, id));
  }

  lemma FinishLater(s: Ops, id: nat)
    requires Ordered(s) && id in s.ops && s.ops[id].phase.Running?
    ensures Later(s, Finish(s, id)) && Ordered(Finish(s, id))
  {
  }

  lemma FinishKeys(s: Ops, id: nat)
    requires Tracked(s) && Ordered(s) && id in s.ops && s.ops[id].phase.Running?
    ensures TrackedKeys(Finish(s, id))
  {
  }

  lemma FinishTags(s: Ops, id: nat)
    requires Tracked(s) && Ordered(s) && id in s.ops && s.ops[id].phase.Running?
    ensures TrackedTags(Finish(s, id))
  {
    hide TrackedKeys, MustFollow, Ordered;
    FirstOfTag(s, id);
    assert TrackedTags(s);
  }

  /** A running invalidation that is the last one of a tag is the only unfinished one with that tag. */
  lemma FirstOfTag(s: Ops, id: nat)
    requires Tracked(s) && Ordered(s) && id in s.ops && s.ops[id].phase.Running?
    ensures forall i, t | i in s.ops && s.ops[i].kind.Invalidate? && !s.ops[i].phase.Done? && t in s.ops[i].kind.tags
                          && t in s.tagOps && s.tagOps[t] == id :: i == id
  {
    hide TrackedKeys, MustFollow;
    forall i, t | i in s.ops && s.ops[i].kind.Invalidate? && !s.ops[i].phase.Done? && t in s.ops[i].kind.tags
                  && t in s.tagOps && s.tagOps[t] == id
      ensures i == id
    {
      SharedTag(s.ops[i].kind, s.ops[id].kind, t);
    }
  }

  lemma SharedTag(earlier: Kind, later: Kind, t: Tag)
    requires earlier.Invalidate? && later.Invalidate? && t in earlier.tags && t in later.tags
    ensures MustFollow(earlier, later)
  {
    assert t in later.tags * earlier.tags;
  }

  // ---------- What the order promises ----------

  /** Operations on one key never overlap, and run in the order they were issued. */
  lemma SerialPerKey(s: Ops, i: nat, j: nat, key: Key)
    requires OpsInv(s) && i in s.ops && j in s.ops && i < j && OnKey(s.ops[i].kind, key) && OnKey(s.ops[j].kind, key)
    ensures s.ops[j].phase.Waiting? || s.ops[i].phase.Done?
  {
    assert MustFollow(s.ops[i].kind, s.ops[j].kind);
  }

  /** A tag invalidation starts only after every operation on a key, and every invalidation sharing a tag, that was
      issued before it. */
  lemma InvalidationFollows(s: Ops, i: nat, j: nat)
    requires OpsInv(s) && i in s.ops && j in s.ops && i < j && s.ops[j].kind.Invalidate?
    requires Changes(s.ops[i].kind) || (s.ops[i].kind.Invalidate? && s.ops[i].kind.tags * s.ops[j].kind.tags != {})
    ensures s.ops[j].phase.Waiting? || s.ops[i].phase.Done?
  {
    assert MustFollow(s.ops[i].kind, s.ops[j].kind) by {
      assert s.ops[i].kind.Invalidate? ==> s.ops[j].kind.tags * s.ops[i].kind.tags == s.ops[i].kind.tags * s.ops[j].kind.tags;
    }
  }

  /** A tagged `set`, an `update` and a cached read start only after the invalidations issued before them that they
      consult: those sharing a tag, or all of them for an `update`; and a read also after the operations on its key. */
  lemma ConsultedFirst(s: Ops, i: nat, j: nat)
    requires OpsInv(s) && i in s.ops && j in s.ops && i < j
    requires var earlier, later := s.ops[i].kind, s.ops[j].kind;
             || (earlier.Invalidate? && later.Update?)
             || (earlier.Invalidate? && (later.Store? || later.Read?) && later.tags * earlier.tags != {})
             || (Changes(earlier) && later.Read? && later.key == earlier.key)
    ensures s.ops[j].phase.Waiting? || s.ops[i].phase.Done?
  {
    assert MustFollow(s.ops[i].kind, s.ops[j].kind);
  }

  ghost predicate Unfinished(s: Ops, i: nat) {
    i in s.ops && !s.ops[i].phase.Done?
  }

  /** Each element waits for the next one, and none has finished. */
  ghost predicate WaitChain(s: Ops, chain: seq<nat>) {
    && (forall k | 0 <= k < |chain| :: Unfinished(s, chain[k]))
    && forall k | 0 <= k < |chain| - 1 :: chain[k + 1] in s.ops[chain[k]].waits
  }

  /** No deadlock: following its own waits, every unfinished operation or read comes to one that is running or can
      start; all of them on the way, but possibly itself, are mutations. */
  lemma {:induction false} NoDeadlock(s: Ops, i: nat) returns (chain: seq<nat>)
    requires Numbered(s) && Unfinished(s, i)
    ensures chain != [] && chain[0] == i && WaitChain(s, chain)
    ensures s.ops[chain[|chain| - 1]].phase.Running? || Ready(s, chain[|chain| - 1])
    ensures forall k | 1 <= k < |chain| :: Mutates(s.ops[chain[k]].kind)
  {
    assert WaitsEarlier(s, i);
    if w :| w in s.ops[i].waits && s.ops[i].phase.Waiting? && !s.ops[w].phase.Done? {
      var rest := NoDeadlock(s, w);
      chain := [i] + rest;
    } else {
      chain := [i];
    }
  }
}
