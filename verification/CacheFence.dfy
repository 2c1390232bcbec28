/** What every step of the cache protocol keeps: tokens fence off stale answers. */
module CacheFence {
  import opened Collections
  import opened CacheOperations
  import opened CacheProtocol

  // ---------- The invariant ----------

  /** Whether an operation makes an answer for this key and these tags stale. */
  predicate Concerns(kind: Kind, key: Key, tags: set<Tag>) {
    match kind
    case Invalidate(ts) => ts * tags != {}
    case Clear(_) => true
    case Read(_, _) => false
    case _ => kind.key == key
  }

  /** Requests hold tokens of their key that carry their tags and are no younger than themselves. */
  ghost predicate AsksOk(asks: map<nat, Ask>, tokens: map<nat, Token>, o: Ops) {
    && (forall r | r in asks :: AskOk(r, asks[r], tokens, o))
    && (forall t | t in tokens :: t < o.next)
  }

  ghost predicate AskOk(r: nat, a: Ask, tokens: map<nat, Token>, o: Ops) {
    && r in o.ops && o.ops[r].kind == Read(a.key, a.tags)
    && a.token in tokens && a.token <= r && tokens[a.token].key == a.key && a.tags <= tokens[a.token].tags
  }

  ghost predicate CurrentOk(current: map<Key, nat>, tokens: map<nat, Token>) {
    forall k | k in current :: current[k] in tokens && tokens[current[k]].key == k && tokens[current[k]].active > 0
  }

  /** Comparing the global generation never matters: whoever holds a current token saw the current generation. */
  ghost predicate GenerationOk(asks: map<nat, Ask>, current: map<Key, nat>, generation: nat) {
    forall r | r in asks && Holds(asks[r], current) :: asks[r].generation == generation
  }

  function Holders(asks: map<nat, Ask>, open: set<nat>, token: nat): set<nat> {
    set r | r in open && r in asks && asks[r].token == token
  }

  /** A token counts the unsettled requests that hold it. */
  ghost predicate Counted(asks: map<nat, Ask>, open: set<nat>, tokens: map<nat, Token>) {
    forall t | t in tokens :: tokens[t].active == |Holders(asks, open, t)|
  }

  /** The fence: a request with a current token asked after everything that concerns it. */
  ghost predicate Fence(asks: map<nat, Ask>, current: map<Key, nat>, o: Ops) {
    forall r, i | r in asks && Holds(asks[r], current) && i in o.ops && Concerns(o.ops[i].kind, asks[r].key, asks[r].tags) ::
      i < r
  }

  /** A request that got past reading had nothing to wait for any more. */
  ghost predicate StagesOk(stages: map<nat, Stage>, o: Ops) {
    forall id | id in stages :: id in o.ops && (stages[id].Asked? || !o.ops[id].phase.Waiting?)
  }

  ghost predicate CoreInv(c: Core) {
    && OpsInv(c.ops) && AsksOk(c.asks, c.tokens, c.ops) && CurrentOk(c.current, c.tokens)
    && GenerationOk(c.asks, c.current, c.generation) && Counted(c.asks, c.open, c.tokens)
    && Fence(c.asks, c.current, c.ops) && c.open <= c.asks.Keys
  }

  // ---------- Growing the operations ----------

  /** Nothing issued is forgotten or taken back, and nothing finished resumes. */
  ghost predicate Extends(o: Ops, n: Ops) {
    && o.next <= n.next
    && (forall i | i in o.ops :: i in n.ops && n.ops[i].kind == o.ops[i].kind)
    && (forall i | i in o.ops && n.ops[i].phase.Waiting? :: o.ops[i].phase.Waiting?)
    && (forall i | i in o.ops && o.ops[i].phase.Done? :: n.ops[i].phase.Done?)
    && (forall i | i in n.ops && i !in o.ops :: i == o.next < n.next)
  }

  lemma IssueExtends(o: Ops, kind: Kind, sync: bool)
    requires Numbered(o)
    ensures Extends(o, Issue(o, kind, sync))
    ensures var n := Issue(o, kind, sync); n.next == o.next + 1 && o.next in n.ops && n.ops[o.next].kind == kind
  {
  }

  lemma AsksStay(asks: map<nat, Ask>, tokens: map<nat, Token>, o: Ops, n: Ops)
    requires AsksOk(asks, tokens, o) && Extends(o, n)
    ensures AsksOk(asks, tokens, n)
  {
  }

  /** Killing tokens, and issuing something that concerns none that is left, keeps the fence. */
  lemma FenceStays(asks: map<nat, Ask>, current: map<Key, nat>, left: map<Key, nat>, o: Ops, n: Ops)
    requires Fence(asks, current, o) && Extends(o, n)
    requires forall k | k in left :: k in current && left[k] == current[k]
    requires o.next in n.ops ==> forall r | r in asks && Holds(asks[r], left) ::
                !Concerns(n.ops[o.next].kind, asks[r].key, asks[r].tags)
    ensures Fence(asks, left, n)
  {
  }

  lemma FewerCurrent(asks: map<nat, Ask>, tokens: map<nat, Token>, generation: nat, current: map<Key, nat>,
                     left: map<Key, nat>)
    requires CurrentOk(current, tokens) && GenerationOk(asks, current, generation)
    requires forall k | k in left :: k in current && left[k] == current[k]
    ensures CurrentOk(left, tokens) && GenerationOk(asks, left, generation)
  {
  }

  // ---------- Each kind of step ----------

  lemma OpsNumbered(o: Ops)
    requires OpsInv(o)
    ensures Numbered(o) && Tracked(o) && o.next !in o.ops
  {
  }

  /** The token a request gets is the current one of its key, or a new one no other request can hold. */
  lemma AcquiredToken(c: Core, key: Key)
    requires AsksOk(c.asks, c.tokens, c.ops) && CurrentOk(c.current, c.tokens)
    ensures var t := Acquired(c, key);
            && t <= c.ops.next
            && (t in c.tokens ==> key in c.current && c.current[key] == t && c.tokens[t].key == key)
            && (t !in c.tokens ==> forall r | r in c.asks :: c.asks[r].token != t)
  {
  }

  lemma AcquireAsks(c: Core, i: nat, key: Key, tags: set<Tag>, raw: bool)
    requires AsksOk(c.asks, c.tokens, c.ops) && CurrentOk(c.current, c.tokens) && Numbered(c.ops)
    ensures var n := Acquire(c, i, key, tags, raw); AsksOk(n.asks, n.tokens, n.ops)
  {
  }

  lemma AcquireCurrent(c: Core, i: nat, key: Key, tags: set<Tag>, raw: bool)
    requires AsksOk(c.asks, c.tokens, c.ops) && CurrentOk(c.current, c.tokens)
    ensures var n := Acquire(c, i, key, tags, raw); CurrentOk(n.current, n.tokens)
  {
  }

  lemma AcquireGeneration(c: Core, i: nat, key: Key, tags: set<Tag>, raw: bool)
    requires AsksOk(c.asks, c.tokens, c.ops) && CurrentOk(c.current, c.tokens) && c.ops.next !in c.ops.ops
    requires GenerationOk(c.asks, c.current, c.generation)
    ensures var n := Acquire(c, i, key, tags, raw); GenerationOk(n.asks, n.current, n.generation)
  {
  }

  /** Who holds a current token after a request has come held it before, or is that request. */
  lemma HeldBefore(c: Core, i: nat, key: Key, tags: set<Tag>, raw: bool)
    requires AsksOk(c.asks, c.tokens, c.ops) && CurrentOk(c.current, c.tokens) && c.ops.next !in c.ops.ops
    ensures var n := Acquire(c, i, key, tags, raw);
            && c.ops.next in n.asks && n.asks[c.ops.next] == Ask(i, key, tags, raw, Acquired(c, key), c.generation)
            && n.asks.Keys == c.asks.Keys + {c.ops.next} && n.generation == c.generation
            && forall r | r in c.asks ::
                 && r != c.ops.next && n.asks[r] == c.asks[r]
                 && (Holds(c.asks[r], n.current) ==> Holds(c.asks[r], c.current))
  {
  }

  lemma AcquireFence(c: Core, i: nat, key: Key, tags: set<Tag>, raw: bool)
    requires AsksOk(c.asks, c.tokens, c.ops) && CurrentOk(c.current, c.tokens) && Numbered(c.ops)
    requires Fence(c.asks, c.current, c.ops)
    ensures var n := Acquire(c, i, key, tags, raw); Fence(n.asks, n.current, n.ops)
  {
  }

  lemma AcquireCounted(c: Core, i: nat, key: Key, tags: set<Tag>, raw: bool)
    requires AsksOk(c.asks, c.tokens, c.ops) && CurrentOk(c.current, c.tokens) && c.ops.next !in c.ops.ops
    requires Counted(c.asks, c.open, c.tokens) && c.open <= c.asks.Keys
    ensures var n := Acquire(c, i, key, tags, raw); Counted(n.asks, n.open, n.tokens)
  {
    AcquiredToken(c, key);
    HeldBefore(c, i, key, tags, raw);
    hide AsksOk, CurrentOk, Acquired, Issue;
    TakeCounted(c.asks, c.open, c.tokens, Acquired(c, key), key, tags, c.ops.next,
                Ask(i, key, tags, raw, Acquired(c, key), c.generation));
  }

  lemma TakeCounted(asks: map<nat, Ask>, open: set<nat>, tokens: map<nat, Token>, token: nat, key: Key, tags: set<Tag>,
                    id: nat, a: Ask)
    requires Counted(asks, open, tokens) && open <= asks.Keys && id !in asks && a.token == token
    requires token !in tokens ==> forall r | r in asks :: asks[r].token != token
    ensures Counted(asks[id := a], open + {id}, Take(tokens, token, key, tags))
  {
    var n := Take(tokens, token, key, tags);
    forall t | t in n ensures n[t].active == |Holders(asks[id := a], open + {id}, t)| {
      HoldersMore(asks, open, id, a, t);
      if t !in tokens {
        NoHolders(asks, open, t);
      }
    }
    hide Holders;
  }

  lemma HoldersMore(asks: map<nat, Ask>, open: set<nat>, id: nat, a: Ask, t: nat)
    requires open <= asks.Keys && id !in asks
    ensures |Holders(asks[id := a], open + {id}, t)| == |Holders(asks, open, t)| + if t == a.token then 1 else 0
  {
    var before := Holders(asks, open, t);
    assert Holders(asks[id := a], open + {id}, t) == if t == a.token then before + {id} else before;
  }

  lemma NoHolders(asks: map<nat, Ask>, open: set<nat>, t: nat)
    requires forall r | r in asks :: asks[r].token != t
    ensures Holders(asks, open, t) == {}
  {
  }

  lemma AcquireInv(c: Core, i: nat, key: Key, tags: set<Tag>, raw: bool)
    requires CoreInv(c)
    ensures CoreInv(Acquire(c, i, key, tags, raw))
  {
    hide OpsInv, AsksOk, CurrentOk, GenerationOk, Counted, Fence, Numbered, Tracked, Issue, Take;
    OpsNumbered(c.ops);
    IssueInv(c.ops, Read(key, tags), false);
    AcquireAsks(c, i, key, tags, raw);
    AcquireCurrent(c, i, key, tags, raw);
    AcquireGeneration(c, i, key, tags, raw);
    AcquireFence(c, i, key, tags, raw);
    AcquireCounted(c, i, key, tags, raw);
  }

  lemma ReleaseInv(c: Core, id: nat)
    requires CoreInv(c) && id in c.open && id in c.asks && c.asks[id].token in c.tokens
    ensures CoreInv(Release(c, id))
  {
    hide OpsInv, AsksOk, CurrentOk, GenerationOk, Counted, Fence;
    ReleaseAsks(c, id);
    ReleaseCurrent(c, id);
    ReleaseCounted(c, id);
    SameExtends(c.ops);
    FenceStays(c.asks, c.current, Release(c, id).current, c.ops, c.ops);
  }

  lemma SameExtends(o: Ops)
    requires OpsInv(o)
    ensures Extends(o, o) && o.next !in o.ops
  {
  }

  lemma ReleaseAsks(c: Core, id: nat)
    requires AsksOk(c.asks, c.tokens, c.ops) && id in c.asks && c.asks[id].token in c.tokens
    ensures AsksOk(c.asks, Release(c, id).tokens, c.ops)
  {
  }

  lemma ReleaseCurrent(c: Core, id: nat)
    requires CurrentOk(c.current, c.tokens) && Counted(c.asks, c.open, c.tokens)
    requires GenerationOk(c.asks, c.current, c.generation)
    requires id in c.open && id in c.asks && c.asks[id].token in c.tokens
    requires AsksOk(c.asks, c.tokens, c.ops)
    ensures var r := Release(c, id); CurrentOk(r.current, r.tokens) && GenerationOk(r.asks, r.current, r.generation)
  {
  }

  lemma ReleaseCounted(c: Core, id: nat)
    requires Counted(c.asks, c.open, c.tokens) && id in c.open && id in c.asks && c.asks[id].token in c.tokens
    ensures var r := Release(c, id); Counted(r.asks, r.open, r.tokens)
  {
    var r := Release(c, id);
    forall t | t in r.tokens ensures r.tokens[t].active == |Holders(r.asks, r.open, t)| {
      var before := Holders(c.asks, c.open, t);
      assert Holders(r.asks, r.open, t) == if t == c.asks[id].token then before - {id} else before;
    }
  }

  /** Operations move on and tokens die, but no request comes or goes. */
  lemma MoveInv(c: Core, n: Core)
    requires CoreInv(c) && OpsInv(n.ops) && Extends(c.ops, n.ops)
    requires n.asks == c.asks && n.open == c.open && n.tokens == c.tokens && n.generation == c.generation
    requires forall k | k in n.current :: k in c.current && n.current[k] == c.current[k]
    requires c.ops.next in n.ops.ops ==> forall r | r in c.asks && Holds(c.asks[r], n.current) ::
               !Concerns(n.ops.ops[c.ops.next].kind, c.asks[r].key, c.asks[r].tags)
    ensures CoreInv(n)
  {
    hide OpsInv, AsksOk, CurrentOk, GenerationOk, Counted, Fence, Extends, Concerns;
    AsksStay(c.asks, c.tokens, c.ops, n.ops);
    FenceStays(c.asks, c.current, n.current, c.ops, n.ops);
    FewerCurrent(c.asks, c.tokens, c.generation, c.current, n.current);
  }

  lemma StartExtends(o: Ops, id: nat)
    requires OpsInv(o) && Ready(o, id)
    ensures OpsInv(Start(o, id)) && Extends(o, Start(o, id)) && o.next !in Start(o, id).ops
  {
    hide OpsInv, Tracked;
    OpsNumbered(o);
    StartInv(o, id);
  }

  lemma FinishExtends(o: Ops, id: nat)
    requires OpsInv(o) && id in o.ops && o.ops[id].phase.Running?
    ensures OpsInv(Finish(o, id)) && Extends(o, Finish(o, id)) && o.next !in Finish(o, id).ops
  {
    hide OpsInv, Tracked;
    OpsNumbered(o);
    FinishInv(o, id);
  }

  /** Whoever survives the issue of a mutation is not concerned by it. */
  lemma Survivors(c: Core, kind: Kind, r: nat)
    requires AsksOk(c.asks, c.tokens, c.ops) && r in c.asks && (Changes(kind) || kind.Invalidate?)
    requires Holds(c.asks[r], c.current - Doomed(c, kind))
    ensures !Concerns(kind, c.asks[r].key, c.asks[r].tags)
  {
  }

  lemma OutdateInv(c: Core, kind: Kind, sync: bool)
    requires CoreInv(c) && (Changes(kind) || (kind.Invalidate? && kind.tags != {}))
    ensures CoreInv(Outdate(c, kind, sync))
  {
    hide OpsInv, CurrentOk, GenerationOk, Counted, Fence, Extends, Concerns, Issue, Numbered, Tracked, Doomed, AsksOk;
    OpsNumbered(c.ops);
    IssueInv(c.ops, kind, sync);
    IssueExtends(c.ops, kind, sync);
    forall r | r in c.asks && Holds(c.asks[r], c.current - Doomed(c, kind))
      ensures !Concerns(kind, c.asks[r].key, c.asks[r].tags)
    {
      Survivors(c, kind, r);
    }
    MoveInv(c, Outdate(c, kind, sync));
  }

  lemma OutdateAllInv(c: Core, returning: set<nat>)
    requires CoreInv(c)
    ensures CoreInv(OutdateAll(c, returning))
  {
    hide OpsInv, CurrentOk, GenerationOk, Counted, Fence, Issue, AsksOk, Tracked, Numbered, Extends;
    OpsNumbered(c.ops);
    var clear := Clear(returning);
    IssueInv(c.ops, clear, true);
    IssueExtends(c.ops, clear, true);
    MoveInv(c, c.(current := map[], ops := Issue(c.ops, clear, true)));
    NoneCurrent(c.asks, c.tokens, c.generation + 1);
  }

  lemma NoneCurrent(asks: map<nat, Ask>, tokens: map<nat, Token>, generation: nat)
    ensures CurrentOk(map[], tokens) && GenerationOk(asks, map[], generation)
  {
  }

  lemma ForgetInv(c: Core)
    requires CoreInv(c)
    ensures CoreInv(c.(current := map[]))
  {
  }

  lemma StartedInv(c: Core, id: nat)
    requires CoreInv(c) && Ready(c.ops, id)
    ensures CoreInv(c.(ops := Start(c.ops, id)))
  {
    hide OpsInv, CurrentOk, GenerationOk, Counted, Fence, AsksOk, Extends, Start, Ready;
    StartExtends(c.ops, id);
    MoveInv(c, c.(ops := Start(c.ops, id)));
  }

  lemma FinishedInv(c: Core, id: nat)
    requires CoreInv(c) && id in c.ops.ops && c.ops.ops[id].phase.Running?
    ensures CoreInv(c.(ops := Finish(c.ops, id)))
  {
    hide OpsInv, CurrentOk, GenerationOk, Counted, Fence, AsksOk, Extends, Finish;
    FinishExtends(c.ops, id);
    MoveInv(c, c.(ops := Finish(c.ops, id)));
  }

  lemma StepCore(s: Cache, e: Event)
    requires CoreInv(s.core) && Enabled(s, e)
    ensures CoreInv(Step(s, e).core)
  {
    hide CoreInv, Acquire, Release, Outdate, OutdateAll, Start, Finish, Ready, Returning;
    match e
    case DoRequest(i, key, tags, raw) => AcquireInv(s.core, i, key, tags, raw);
    case DoLook(id) =>
      if s.core.ops.ops[id].phase.Waiting? {
        StartedInv(s.core, id);
      }
    case DoSettle(id, _) => ReleaseInv(s.core, id);
    case DoUninstall(_) => ForgetInv(s.core);
    case DoMutate(kind, sync, _, _) => OutdateInv(s.core, kind, sync);
    case DoClear(_) => OutdateAllInv(s.core, Returning(s.core.ops, s.disk.reading));
    case DoBegin(id, _) => StartedInv(s.core, id);
    case DoFinish(id) => FinishedInv(s.core, id);
    case _ =>
  }

  lemma EmptyCore()
    ensures CoreInv(EMPTY.core)
  {
  }

  lemma FreshAsk(c: Core)
    requires CoreInv(c)
    ensures c.ops.next !in c.asks && c.ops.next !in c.ops.ops
  {
  }

  lemma CoreNumbered(c: Core)
    requires CoreInv(c)
    ensures OpsInv(c.ops) && Numbered(c.ops)
  {
  }

  /** While a request holds a current token and has read, no operation on its key is unfinished. */
  lemma QuietKey(c: Core, id: nat)
    requires CoreInv(c) && id in c.asks && IsCurrent(c, c.asks[id])
    requires id in c.ops.ops && !c.ops.ops[id].phase.Waiting?
    ensures Quiet(c.ops, c.asks[id].key)
  {
    var a := c.asks[id];
    assert AskOk(id, a, c.tokens, c.ops);
    forall i | i in c.ops.ops && OnKey(c.ops.ops[i].kind, a.key) ensures c.ops.ops[i].phase.Done? {
      assert i < id;
      assert MustFollow(c.ops.ops[i].kind, Read(a.key, a.tags));
    }
    hide Numbered, Tracked, WaitsEnough, CurrentOk, GenerationOk, Counted;
  }

  ghost predicate Quiet(o: Ops, key: Key) {
    forall i | i in o.ops && OnKey(o.ops[i].kind, key) :: o.ops[i].phase.Done?
  }
}
