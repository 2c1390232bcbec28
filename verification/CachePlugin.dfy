/** The cache plugin as the maps its hooks and mutations update in place. Between two awaits every callback makes one
    step of the protocol, and what it promises its callers is stated beside that step. */
module CachePlugin {
  import opened Collections
  import opened CacheOperations
  import opened CacheProtocol
  import opened CacheFence
  import opened CacheFreshness
  import opened CacheFlights
  import opened CacheGuarantees
  import opened CacheContracts

  class CacheState {
    // Explicit operations and cached reads, in the order they were issued, and the pending promise of the last
    // operation on a key and the last invalidation of a tag.
    var next: nat
    var operations: map<nat, Op>
    var keyOperations: map<Key, nat>
    var tagInvalidations: map<Tag, nat>

    // Generations: `tokens` are the generation objects, `open` the unsettled requests.
    var generation: nat
    var keyGenerations: map<Key, nat>
    var tokens: map<nat, Token>
    var requestGenerations: map<nat, Ask>
    var open: set<nat>

    // The store, and what running updates have read from it.
    var store: map<Key, Entry>
    var updating: map<nat, Option<Entry>>
    ghost var applied: set<nat>
    ghost var writes: set<Write>

    // Requests on their way, and the flights they lead or follow.
    var stages: map<nat, Stage>
    var revalidations: map<nat, Entry>
    var completedRecords: map<nat, Entry>
    var uncacheableLeaders: set<nat>
    var flights: map<nat, Flight>
    var inFlight: map<Key, nat>
    var rawInFlight: map<Key, nat>

    var installs: nat
    var installed: set<nat>
    ghost var orphans: set<nat>

    ghost function TheOps(): Ops
      reads this`next, this`operations, this`keyOperations, this`tagInvalidations
    {
      Ops(next, operations, keyOperations, tagInvalidations)
    }

    ghost function TheCore(): Core
      reads this`next, this`operations, this`keyOperations, this`tagInvalidations,
            this`generation, this`keyGenerations, this`tokens, this`requestGenerations, this`open
    {
      Core(TheOps(), generation, keyGenerations, tokens, requestGenerations, open)
    }

    ghost function TheDisk(): Disk
      reads this`store, this`updating, this`applied, this`writes
    {
      Disk(store, updating, applied, writes)
    }

    ghost function TheWork(): Work
      reads this`stages, this`revalidations, this`completedRecords, this`uncacheableLeaders, this`flights,
            this`inFlight, this`rawInFlight
    {
      Work(stages, revalidations, completedRecords, uncacheableLeaders, flights, inFlight, rawInFlight)
    }

    ghost function State(): Cache
      reads this
    {
      Cache(TheCore(), TheDisk(), TheWork(), installs, installed, orphans)
    }

    /** Steps of the protocol have led here; so all that holds in every run holds of this object. */
    ghost predicate Valid()
      reads this
    {
      Reachable(State())
    }

    constructor ()
      ensures Valid() && State() == EMPTY
    {
      hide Reachable;
      next, operations, keyOperations, tagInvalidations := 0, map[], map[], map[];
      generation, keyGenerations, tokens, requestGenerations, open := 0, map[], map[], map[], {};
      store, updating, applied, writes := map[], map[], {}, {};
      stages, revalidations, completedRecords, uncacheableLeaders := map[], map[], map[], {};
      flights, inFlight, rawInFlight := map[], map[], map[];
      installs, installed, orphans := 0, {}, {};
      new;
      EmptyReachable();
    }

    /** The installation is a new one. */
    method Install() returns (installation: nat)
      requires Valid()
      modifies this
      ensures Valid() && State() == Step(old(State()), Event.Install)
      ensures installation !in old(installed) && installed == old(installed) + {installation}
    {
      hide Reachable;
      InstallFacts(State());
      StepReachable(State(), Event.Install);
      installation := installs;
      installs, installed := installs + 1, installed + {installs};
    }

    // ---------- Operations ----------

    /** The pending promises an operation has to wait for. */
    method CollectWaits(kind: Kind) returns (waits: set<nat>)
      ensures waits == Waits(TheOps(), kind)
    {
      if kind.Clear? {
        return {};
      }
      if kind.Invalidate? {
        waits := keyOperations.Values;
      } else {
        waits := if kind.key in keyOperations then {keyOperations[kind.key]} else {};
      }
      if kind.Update? {
        waits := waits + tagInvalidations.Values;
      } else if !kind.Delete? {
        var pending := TagPromises(kind.tags);
        waits := waits + pending;
      }
    }

    method TagPromises(tags: set<Tag>) returns (pending: set<nat>)
      ensures pending == set t | t in tags && t in tagInvalidations :: tagInvalidations[t]
    {
      pending := {};
      var rest := tags;
      while rest != {}
        invariant rest <= tags && pending == set t | t in tags - rest && t in tagInvalidations :: tagInvalidations[t]
        decreases |rest|
      {
        var t :| t in rest;
        assert tags - (rest - {t}) == tags - rest + {t};
        if t in tagInvalidations {
          pending := pending + {tagInvalidations[t]};
        }
        rest := rest - {t};
      }
      assert tags - rest == tags;
    }

    /** An operation becomes the last one of its key, or an invalidation the last one of each of its tags. */
    method TrackOperation(kind: Kind, id: nat)
      modifies this`keyOperations, this`tagInvalidations
      ensures TheOps() == Track(old(TheOps()), kind, id)
    {
      if Changes(kind) {
        keyOperations := keyOperations[kind.key := id];
      } else if kind.Invalidate? {
        ghost var was: map<Tag, nat> := tagInvalidations;
        var rest := kind.tags;
        while rest != {}
          invariant rest <= kind.tags && tagInvalidations == was + map t | t in kind.tags - rest :: id
          invariant keyOperations == old(keyOperations)
          decreases |rest|
        {
          var t :| t in rest;
          ghost var added: map<Tag, nat> := map u | u in kind.tags - rest :: id;
          assert added[t := id] == map u | u in kind.tags - (rest - {t}) :: id;
          assert (was + added)[t := id] == was + added[t := id];
          tagInvalidations := tagInvalidations[t := id];
          rest := rest - {t};
        }
        assert kind.tags - rest == kind.tags;
      }
    }

    /** Starts an operation at once when it has nothing to wait for. */
    method IssueOperation(kind: Kind, sync: bool) returns (starts: bool)
      modifies this`next, this`operations, this`keyOperations, this`tagInvalidations
      ensures TheOps() == Issue(old(TheOps()), kind, sync) && (starts <==> Waits(old(TheOps()), kind) == {})
    {
      hide Waits, Track;
      var id := next;
      var waits := CollectWaits(kind);
      starts := waits == {};
      next := next + 1;
      if starts && sync {
        operations := operations[id := Op(kind, {}, Done)];
      } else {
        operations := operations[id := Op(kind, waits, if starts then Running else Waiting)];
        TrackOperation(kind, id);
      }
    }

    /** The promise of an operation settles. */
    method FinishOperation(id: nat)
      requires Valid() && Enabled(State(), DoFinish(id))
      modifies this`operations, this`keyOperations, this`tagInvalidations
      ensures Valid() && State() == Step(old(State()), DoFinish(id))
    {
      hide Reachable, Finish;
      ghost var s := State();
      StepReachable(s, DoFinish(id));
      LeaveMaps(id);
    }

    method LeaveMaps(id: nat)
      requires id in operations
      modifies this`operations, this`keyOperations, this`tagInvalidations
      ensures TheOps() == Finish(old(TheOps()), id)
    {
      var kind := operations[id].kind;
      if Changes(kind) {
        if kind.key in keyOperations && keyOperations[kind.key] == id {
          keyOperations := keyOperations - {kind.key};
        }
      } else if kind.Invalidate? {
        Untrack(kind.tags, id);
      }
      operations := operations[id := operations[id].(phase := Done)];
      assert tagInvalidations == Finish(old(TheOps()), id).tagOps;
    }

    /** Every tag whose last invalidation is `id` loses it. */
    method Untrack(tags: set<Tag>, id: nat)
      modifies this`tagInvalidations
      ensures tagInvalidations
           == map t | t in old(tagInvalidations) && !(t in tags && old(tagInvalidations)[t] == id) :: old(tagInvalidations)[t]
    {
      ghost var before := tagInvalidations;
      var rest := tags;
      while rest != {}
        invariant rest <= tags
        invariant tagInvalidations == map t | t in before && !(t in tags - rest && before[t] == id) :: before[t]
        decreases |rest|
      {
        var t :| t in rest;
        assert tags - (rest - {t}) == tags - rest + {t};
        if t in tagInvalidations && tagInvalidations[t] == id {
          tagInvalidations := tagInvalidations - {t};
        }
        rest := rest - {t};
      }
      assert tags - rest == tags;
    }

    // ---------- Mutations ----------

    /** Whatever is under way for a key is outdated. */
    method InvalidateKeyState(key: Key)
      modifies this`keyGenerations, this`inFlight, this`rawInFlight
      ensures keyGenerations == old(keyGenerations) - {key}
      ensures inFlight == old(inFlight) - {key} && rawInFlight == old(rawInFlight) - {key}
    {
      keyGenerations := keyGenerations - {key};
      inFlight := inFlight - {key};
      rawInFlight := rawInFlight - {key};
    }

    method InvalidateTagged(tags: set<Tag>)
      modifies this`keyGenerations, this`inFlight, this`rawInFlight
      ensures var doomed := Tagged(old(TheCore()), tags);
              && keyGenerations == old(keyGenerations) - doomed
              && inFlight == old(inFlight) - doomed && rawInFlight == old(rawInFlight) - doomed
    {
      hide Tagged, InTagged;
      ghost var doomed := Tagged(TheCore(), tags);
      ghost var current, data, raw := keyGenerations, inFlight, rawInFlight;
      var rest, generations := keyGenerations.Keys, keyGenerations;
      ghost var done: set<Key> := {};
      TaggedExactly(TheCore(), tags);
      while rest != {}
        invariant rest <= generations.Keys && done == doomed - rest
        invariant keyGenerations == current - done && inFlight == data - done && rawInFlight == raw - done
        decreases |rest|
      {
        var key :| key in rest;
        DoneMore(doomed, rest, key);
        if InTagged(generations, tokens, key, tags) {
          LessKeys(current, done, key);
          LessKeys(data, done, key);
          LessKeys(raw, done, key);
          InvalidateKeyState(key);
          done := done + {key};
        }
        rest := rest - {key};
      }
      assert done == doomed;
    }

    /** The call into the store as an operation starts. */
    method CallStore(id: nat, kind: Kind, works: bool)
      modifies this`store, this`updating, this`applied
      ensures TheDisk() == Effect(old(TheDisk()), id, kind, works)
    {
      if kind.Update? {
        updating := updating[id := if kind.key in store then Some(store[kind.key]) else None];
        return;
      }
      if !works {
        return;
      }
      applied := applied + {id};
      match kind
      case Delete(key) => store := store - {key};
      case Store(key, tags) => store := store[key := Entry(Explicit(id), tags)];
      case Invalidate(tags) => store := map k | k in store && store[k].tags * tags == {} :: store[k];
      case Clear(_) => store := map[];
      case _ =>
    }

    method WriteBack(id: nat, key: Key, keep: bool, works: bool)
      requires id in updating
      modifies this`store, this`updating, this`applied
      ensures TheDisk() == Rewrite(old(TheDisk()), id, key, keep, works)
    {
      var entry := updating[id];
      updating := updating - {id};
      if entry.Some? && works {
        store := if keep then store[key := Entry(Explicit(id), entry.value.tags)] else store - {key};
        applied := applied + {id};
      }
    }

    /** `delete`, `set`, `update` and `invalidateTags`. Exactly the unsettled requests whose token it concerns lose a
        current one, and none that it concerns keeps one. */
    method MutateKeys(kind: Kind, sync: bool, works: bool, keep: bool)
      requires Valid() && Enabled(State(), DoMutate(kind, sync, works, keep))
      modifies this
      ensures Valid() && State() == Step(old(State()), DoMutate(kind, sync, works, keep))
      ensures FencedOff(old(TheCore()), TheCore(), kind)
    {
      hide Reachable, Step, Enabled, Mutates, Issue, Waits, Doomed, Effects, FencedOff;
      ghost var e := DoMutate(kind, sync, works, keep);
      ghost var s := State();
      MutateFacts(s, kind, sync, works, keep);
      StepReachable(s, e);
      RunMutation(kind, sync, works, keep);
    }

    method RunMutation(kind: Kind, sync: bool, works: bool, keep: bool)
      requires Mutates(kind)
      modifies this`next, this`operations, this`keyOperations, this`tagInvalidations, this`keyGenerations, this`inFlight,
               this`rawInFlight, this`store, this`updating, this`applied
      ensures TheOps() == Issue(old(TheOps()), kind, sync)
      ensures TheDisk() == if Waits(old(TheOps()), kind) != {} then old(TheDisk())
                           else Effects(old(TheDisk()), old(next), kind, sync, works, keep)
      ensures var doomed := Doomed(old(TheCore()), kind);
              && keyGenerations == old(keyGenerations) - doomed
              && inFlight == old(inFlight) - doomed && rawInFlight == old(rawInFlight) - doomed
    {
      hide Issue, Waits, Doomed, Effects;
      var id := next;
      InvalidateConcerned(kind);
      var starts := IssueOperation(kind, sync);
      if starts {
        StartMutation(id, kind, sync, works, keep);
      }
    }

    method InvalidateConcerned(kind: Kind)
      requires Mutates(kind)
      modifies this`keyGenerations, this`inFlight, this`rawInFlight
      ensures var doomed := Doomed(old(TheCore()), kind);
              && keyGenerations == old(keyGenerations) - doomed
              && inFlight == old(inFlight) - doomed && rawInFlight == old(rawInFlight) - doomed
    {
      hide Tagged;
      if kind.Invalidate? {
        InvalidateTagged(kind.tags);
      } else {
        InvalidateKeyState(kind.key);
      }
    }

    method StartMutation(id: nat, kind: Kind, sync: bool, works: bool, keep: bool)
      modifies this`store, this`updating, this`applied
      ensures TheDisk() == Effects(old(TheDisk()), id, kind, sync, works, keep)
    {
      CallStore(id, kind, works);
      if kind.Update? && sync {
        WriteBack(id, kind.key, keep, works);
      }
    }

    /** Nobody holds a current token any more, and a store that works is empty. */
    method Clear(works: bool)
      requires Valid()
      modifies this
      ensures Valid() && State() == Step(old(State()), DoClear(works))
      ensures forall r | r in requestGenerations :: !Holds(requestGenerations[r], keyGenerations)
      ensures works ==> store == map[]
    {
      hide Reachable, Issue, Returning, Effect;
      ghost var s := State();
      StepReachable(s, DoClear(works));
      Empty(works);
    }

    method Empty(works: bool)
      modifies this`next, this`operations, this`keyOperations, this`tagInvalidations, this`generation,
               this`inFlight, this`rawInFlight, this`keyGenerations, this`store, this`updating, this`applied
      ensures generation == old(generation) + 1 && inFlight == map[] && rawInFlight == map[] && keyGenerations == map[]
      ensures TheOps() == Issue(old(TheOps()), Kind.Clear(Returning(old(TheOps()), old(updating))), true)
      ensures TheDisk() == Effect(old(TheDisk()), old(next), Kind.Clear(Returning(old(TheOps()), old(updating))), works)
      ensures works ==> store == map[]
    {
      hide Issue, Returning;
      var id, kind := next, Kind.Clear(Returning(Ops(next, operations, keyOperations, tagInvalidations), updating));
      generation := generation + 1;
      inFlight, rawInFlight, keyGenerations := map[], map[], map[];
      var _ := IssueOperation(kind, true);
      CallStore(id, kind, works);
    }

    /** An operation whose waits are over starts, with all it must follow finished. */
    method StartOperation(id: nat, works: bool)
      requires Valid() && Enabled(State(), DoBegin(id, works))
      modifies this`operations, this`store, this`updating, this`applied
      ensures Valid() && State() == Step(old(State()), DoBegin(id, works))
      ensures id in operations && Unhindered(operations, id)
    {
      hide Reachable, Step, Enabled, Effect, Ready, Unhindered;
      ghost var s := State();
      BeginFacts(s, id, works);
      StepReachable(s, DoBegin(id, works));
      RunOperation(id, works);
    }

    method RunOperation(id: nat, works: bool)
      requires id in operations
      modifies this`operations, this`store, this`updating, this`applied
      ensures operations == old(operations)[id := old(operations)[id].(phase := Running)]
      ensures TheDisk() == Effect(old(TheDisk()), id, old(operations)[id].kind, works)
    {
      hide Effect;
      CallStore(id, operations[id].kind, works);
      operations := operations[id := operations[id].(phase := Running)];
    }

    /** An update touches its own key only, and only when it found a record. */
    method FinishUpdate(id: nat, keep: bool, works: bool)
      requires Valid() && Enabled(State(), DoRewrite(id, keep, works))
      modifies this`store, this`updating, this`applied
      ensures Valid() && State() == Step(old(State()), DoRewrite(id, keep, works))
      ensures store - {operations[id].kind.key} == old(store) - {operations[id].kind.key}
      ensures old(updating)[id].None? ==> store == old(store)
    {
      hide Reachable;
      StepReachable(State(), DoRewrite(id, keep, works));
      WriteBack(id, operations[id].kind.key, keep, works);
    }

    // ---------- Requests ----------

    predicate IsCurrentGeneration(a: Ask)
      reads this`generation, this`keyGenerations
    {
      a.generation == generation && a.key in keyGenerations && keyGenerations[a.key] == a.token
    }

    /** Adds the tags of a request to its token one by one. */
    method AddTags(token: nat, tags: set<Tag>)
      requires token in tokens
      modifies this`tokens
      ensures tokens == old(tokens)[token := old(tokens)[token].(tags := old(tokens)[token].tags + tags)]
    {
      ghost var was := tokens;
      var rest := tags;
      assert was[token].tags + (tags - rest) == was[token].tags;
      assert tokens == was[token := was[token]];
      while rest != {}
        invariant rest <= tags && token in tokens
        invariant tokens == was[token := was[token].(tags := was[token].tags + (tags - rest))]
        decreases |rest|
      {
        var t :| t in rest;
        assert was[token].tags + (tags - (rest - {t})) == was[token].tags + (tags - rest) + {t};
        tokens := tokens[token := tokens[token].(tags := tokens[token].tags + {t})];
        rest := rest - {t};
      }
      assert tags - rest == tags;
    }

    method AcquireGeneration(installation: nat, key: Key, tags: set<Tag>, raw: bool)
      requires TokenFound(TheCore(), key)
      modifies this`keyGenerations, this`tokens, this`requestGenerations, this`open
      ensures keyGenerations == old(keyGenerations)[key := Acquired(old(TheCore()), key)]
      ensures tokens == Take(old(tokens), Acquired(old(TheCore()), key), key, tags)
      ensures requestGenerations
           == old(requestGenerations)[next := Ask(installation, key, tags, raw, Acquired(old(TheCore()), key), generation)]
      ensures open == old(open) + {next}
    {
      if key !in keyGenerations {
        tokens := tokens[next := Token(key, 0, {})];
        keyGenerations := keyGenerations[key := next];
      }
      var token := keyGenerations[key];
      tokens := tokens[token := tokens[token].(active := tokens[token].active + 1)];
      AddTags(token, tags);
      requestGenerations := requestGenerations[next := Ask(installation, key, tags, raw, token, generation)];
      open := open + {next};
    }

    /** The new request holds a current token that carries its tags; nobody else has gained or lost one. */
    method OnRequest(installation: nat, key: Key, tags: set<Tag>, raw: bool) returns (id: nat)
      requires Valid() && installation in installed
      modifies this
      ensures Valid() && State() == Step(old(State()), DoRequest(installation, key, tags, raw))
      ensures id == old(next) && Joined(old(TheCore()), TheCore(), id, tags)
    {
      hide Reachable, Step, Enabled, Joined, Acquire, TokenFound;
      ghost var s := State();
      RequestFacts(s, installation, key, tags, raw);
      StepReachable(s, DoRequest(installation, key, tags, raw));
      id := Enter(installation, key, tags, raw);
    }

    method Enter(installation: nat, key: Key, tags: set<Tag>, raw: bool) returns (id: nat)
      requires TokenFound(TheCore(), key)
      modifies this`next, this`operations, this`keyOperations, this`tagInvalidations,
               this`keyGenerations, this`tokens, this`requestGenerations, this`open, this`stages
      ensures id == old(next) && TheCore() == Acquire(old(TheCore()), installation, key, tags, raw)
      ensures stages == old(stages)[id := Asked]
    {
      hide Acquired, Take, Issue, Waits, TokenFound;
      id := next;
      AcquireGeneration(installation, key, tags, raw);
      var _ := IssueOperation(Read(key, tags), false);
      stages := stages[id := Asked];
    }

    /** Reads the store once all the request must follow has finished. */
    method ReadRecord(id: nat)
      requires Valid() && Enabled(State(), DoLook(id))
      modifies this`operations, this`stages
      ensures Valid() && State() == Step(old(State()), DoLook(id))
      ensures id in operations && Unhindered(operations, id)
    {
      hide Reachable, Ready, Unhindered;
      ghost var s := State();
      LookFacts(s, id);
      StepReachable(s, DoLook(id));
      if operations[id].phase.Waiting? {
        operations := operations[id := operations[id].(phase := Running)];
      }
      var key := requestGenerations[id].key;
      stages := stages[id := Looked(if key in store then Some(store[key]) else None)];
    }

    method DeleteRecord(id: nat, key: Key)
      modifies this`store, this`writes
      ensures TheDisk() == Drop(old(TheDisk()), next, id, key)
    {
      store := store - {key};
      writes := writes + {Write(next, id, key)};
    }

    /** The store changes under a current token only, and at the key of the request only. */
    method HandleRecord(id: nat, verdict: Verdict)
      requires Valid() && Enabled(State(), DoHandle(id, verdict))
      modifies this`stages, this`store, this`writes
      ensures Valid() && State() == Step(old(State()), DoHandle(id, verdict))
      ensures TokenGuarded(old(State()), State(), id)
    {
      hide Reachable, Step, Enabled, Drop, TokenGuarded;
      ghost var s := State();
      HandleFacts(s, id, verdict);
      StepReachable(s, DoHandle(id, verdict));
      var found, stage := stages[id].found, Sent;
      if IsCurrentGeneration(requestGenerations[id]) {
        if found.None? {
          stage := Missing(None);
        } else {
          match verdict
          case Fresh => stage := Over;
          case Expired =>
            stage := Missing(None);
            DeleteRecord(id, requestGenerations[id].key);
          case Stale => stage := Missing(found);
          case Unusable => stage := Missing(None);
        }
      }
      stages := stages[id := stage];
    }

    /** Whoever waits for a flight asks for its promise, which is made when first asked for. */
    method Follow(id: nat, leader: nat)
      modifies this`flights, this`stages
      ensures flights == if leader in old(flights) then old(flights)[leader := old(flights)[leader].(promised := true)]
                         else old(flights)
      ensures stages == old(stages)[id := Following(leader)]
    {
      if leader in flights {
        flights := flights[leader := flights[leader].(promised := true)];
      }
      stages := stages[id := Following(leader)];
    }

    method ElectLeader(id: nat, key: Key, raw: bool)
      modifies this`flights, this`inFlight, this`rawInFlight
      ensures raw ==>
        && flights == Demand(old(TheWork()), key)[id := Flight(true, false, false, true, [])]
        && rawInFlight == old(rawInFlight)[key := id] && inFlight == old(inFlight)
      ensures !raw ==>
        && flights == old(flights)[id := Flight(false, false, false, true, [])]
        && inFlight == old(inFlight)[key := id] && rawInFlight == old(rawInFlight)
    {
      if raw {
        if key in inFlight && inFlight[key] in flights {
          var data := inFlight[key];
          flights := flights[data := flights[data].(rawDemanded := true)];
        }
        rawInFlight := rawInFlight[key := id];
      } else {
        inFlight := inFlight[key := id];
      }
      flights := flights[id := Flight(raw, false, false, true, [])];
    }

    /** A new leader is the only one of its kind and key with a current token; a follower waits for an unsettled
        promise, and shares its leader's token exactly when that is current. */
    method PrepareMiss(id: nat, dedupe: bool)
      requires Valid() && Enabled(State(), DoMiss(id, dedupe))
      modifies this`stages, this`revalidations, this`flights, this`inFlight, this`rawInFlight
      ensures Valid() && State() == Step(old(State()), DoMiss(id, dedupe))
      ensures LeadsAlone(State(), id) && FollowsLive(State(), id)
    {
      hide Reachable, Step, LeadsAlone, FollowsLive, Miss;
      ghost var s := State();
      MissFacts(s, id, dedupe);
      StepReachable(s, DoMiss(id, dedupe));
      JoinOrLead(id, dedupe);
    }

    method JoinOrLead(id: nat, dedupe: bool)
      requires id in requestGenerations && id in stages && stages[id].Missing?
      modifies this`stages, this`revalidations, this`flights, this`inFlight, this`rawInFlight
      ensures TheWork() == Miss(old(State()), id, dedupe).work
    {
      hide Demand;
      var ask, stale := requestGenerations[id], stages[id].stale;
      if !IsCurrentGeneration(ask) {
        stages := stages[id := Sent];
        return;
      }
      if dedupe {
        if !ask.raw && ask.key in inFlight {
          Follow(id, inFlight[ask.key]);
          return;
        }
        if ask.key in rawInFlight {
          Follow(id, rawInFlight[ask.key]);
          return;
        }
        ElectLeader(id, ask.key, ask.raw);
      }
      stages := stages[id := Sent];
      if stale.Some? {
        revalidations := revalidations[id := stale.value];
      }
    }

    /** The record carries the tags of the token, or else those of the record it revalidates. */
    method CreateEntry(id: nat) returns (entry: Entry)
      requires id in requestGenerations && requestGenerations[id].token in tokens
      ensures entry == EntryOf(State(), id)
    {
      var tags := tokens[requestGenerations[id].token].tags;
      if tags == {} && id in revalidations {
        tags := revalidations[id].tags;
      }
      entry := Entry(ByRequest(id), tags);
    }

    /** Write-back and deletion: the store changes under a current token only, and at the key of the request only. With
        one, a response that must not be stored leaves no record of its key, and one that may be stored its own. */
    method OnResponse(id: nat, answer: Answer)
      requires Valid() && Enabled(State(), DoRespond(id, answer))
      modifies this`completedRecords, this`uncacheableLeaders, this`store, this`writes
      ensures Valid() && State() == Step(old(State()), DoRespond(id, answer))
      ensures TokenGuarded(old(State()), State(), id) && Replaced(old(State()), State(), id, answer)
    {
      hide Reachable, Step, TokenGuarded, Replaced, Respond;
      ghost var s := State();
      RespondFacts(s, id, answer);
      StepReachable(s, DoRespond(id, answer));
      KeepAnswer(id, answer);
    }

    method KeepAnswer(id: nat, answer: Answer)
      requires id in requestGenerations && requestGenerations[id].token in tokens
      modifies this`completedRecords, this`uncacheableLeaders, this`store, this`writes
      ensures TheWork() == Respond(old(State()), id, answer).work && TheDisk() == Respond(old(State()), id, answer).disk
    {
      hide EntryOf;
      var key, leads := requestGenerations[id].key, id in flights && flights[id].registered;
      var current := IsCurrentGeneration(requestGenerations[id]);
      var record := CreateEntry(id);
      var cacheable := answer.Storable?;
      if answer.Stream? || answer.Unstorable? {
        if current {
          DeleteRecord(id, key);
        }
        cacheable := answer.Unstorable? && leads && (flights[id].promised || (current && answer.slow));
      }
      if cacheable {
        completedRecords := completedRecords[id := record];
      } else if leads || answer.Stream? {
        uncacheableLeaders := uncacheableLeaders + {id};
      }
      if answer.Storable? && current && !(leads && flights[id].rawDemanded) {
        store := store[key := record];
        writes := writes + {Write(next, id, key)};
      }
    }

    method ReleaseGeneration(id: nat)
      requires id in requestGenerations && requestGenerations[id].token in tokens
      modifies this`keyGenerations, this`tokens, this`open
      ensures TheCore() == Release(old(TheCore()), id)
    {
      var ask := requestGenerations[id];
      var active := tokens[ask.token].active - 1;
      tokens := tokens[ask.token := tokens[ask.token].(active := active)];
      open := open - {id};
      if active == 0 && ask.key in keyGenerations && keyGenerations[ask.key] == ask.token {
        keyGenerations := keyGenerations - {ask.key};
      }
    }

    /** The flight of a leader has its one outcome if anybody asked for it, and every other flight stays as it is;
        the unsettled requests keep their tokens. */
    method OnSettled(id: nat, succeeded: bool)
      requires Valid() && Enabled(State(), DoSettle(id, succeeded))
      modifies this`keyGenerations, this`tokens, this`open, this`flights, this`inFlight, this`rawInFlight
      ensures Valid() && State() == Step(old(State()), DoSettle(id, succeeded))
      ensures SettlesOnce(old(State()), State(), id) && OthersHold(old(TheCore()), TheCore(), id)
    {
      hide Reachable, Step, Enabled, Release, Land, SettlesOnce, OthersHold;
      ghost var s := State();
      SettleFacts(s, id, succeeded);
      StepReachable(s, DoSettle(id, succeeded));
      LetGo(id, succeeded);
    }

    method LetGo(id: nat, succeeded: bool)
      requires id in requestGenerations && requestGenerations[id].token in tokens
      modifies this`keyGenerations, this`tokens, this`open, this`flights, this`inFlight, this`rawInFlight
      ensures TheCore() == Release(old(TheCore()), id)
      ensures TheWork() == Land(old(TheWork()), id, requestGenerations[id].key, succeeded)
    {
      hide Release;
      var key := requestGenerations[id].key;
      if id in flights && flights[id].registered {
        SettleFlight(id, key, succeeded);
      }
      ReleaseGeneration(id);
    }

    method SettleFlight(id: nat, key: Key, succeeded: bool)
      requires Leads(TheWork(), id)
      modifies this`flights, this`inFlight, this`rawInFlight
      ensures TheWork() == Land(old(TheWork()), id, key, succeeded)
    {
      Unregister(id, key);
      if id in uncacheableLeaders {
        SettlePromise(id, Nothing);
      } else if id in completedRecords && succeeded {
        SettlePromise(id, Shared(completedRecords[id]));
      } else {
        SettlePromise(id, Failure);
      }
    }

    /** The leader leaves the map of its kind unless another one has taken its place there. */
    method Unregister(id: nat, key: Key)
      requires id in flights
      modifies this`inFlight, this`rawInFlight
      ensures inFlight == if flights[id].raw then old(inFlight) else Unlink(old(inFlight), key, id)
      ensures rawInFlight == if flights[id].raw then Unlink(old(rawInFlight), key, id) else old(rawInFlight)
    {
      if flights[id].raw {
        if key in rawInFlight && rawInFlight[key] == id {
          rawInFlight := rawInFlight - {key};
        }
      } else if key in inFlight && inFlight[key] == id {
        inFlight := inFlight - {key};
      }
    }

    /** A promise nobody asked for is not there to be settled. */
    method SettlePromise(id: nat, outcome: Outcome)
      requires id in flights
      modifies this`flights
      ensures flights == old(flights)[id := Settled(old(flights)[id], outcome)]
    {
      var flight := flights[id];
      if flight.promised {
        flight := flight.(outcomes := flight.outcomes + [outcome]);
      }
      flights := flights[id := flight.(registered := false)];
    }

    // ---------- Removal ----------

    /** Nobody holds a current token any more. The flights the installation led fail, each once and only if anybody
        asked for it, and all others stay as they are. */
    method CleanUp(installation: nat)
      requires Valid() && installation in installed
      modifies this`flights, this`inFlight, this`rawInFlight, this`keyGenerations, this`installed, this`orphans
      ensures Valid() && State() == Step(old(State()), DoUninstall(installation))
      ensures forall r | r in requestGenerations :: !Holds(requestGenerations[r], keyGenerations)
      ensures RejectsOwned(old(State()), State(), installation)
    {
      hide Reachable, Step, Enabled, LinksOk, Abandon, RejectsOwned;
      ghost var s := State();
      UninstallFacts(s, installation);
      StepReachable(s, DoUninstall(installation));
      Remove(installation);
    }

    method Remove(installation: nat)
      requires LinksOk(TheWork(), requestGenerations, open, installed)
      modifies this`flights, this`inFlight, this`rawInFlight, this`keyGenerations, this`installed, this`orphans
      ensures var left := Abandon(old(TheWork()), requestGenerations, installation);
              && flights == left.flights && inFlight == left.inFlight && rawInFlight == left.rawInFlight
              && orphans == old(orphans) + Leaders(left)
      ensures keyGenerations == map[] && installed == old(installed) - {installation}
    {
      hide LinksOk, Abandon;
      RejectOwned(installation);
      keyGenerations := map[];
      installed := installed - {installation};
      orphans := orphans + Leaders(TheWork());
    }

    method RejectOwned(installation: nat)
      requires LinksOk(TheWork(), requestGenerations, open, installed)
      modifies this`flights, this`inFlight, this`rawInFlight
      ensures var left := Abandon(old(TheWork()), requestGenerations, installation);
              flights == left.flights && inFlight == left.inFlight && rawInFlight == left.rawInFlight
    {
      hide LinksOk, MapOk, Kept, Rejected, Settled, Unlink, Abandon;
      ghost var w := TheWork();
      var owned := set p | p in flights && flights[p].registered && p in requestGenerations
                           && requestGenerations[p].installation == installation;
      var rest := owned;
      assert owned - rest == {};
      RejectNone(w);
      while rest != {}
        invariant rest <= owned && flights == Rejected(w.flights, owned - rest)
        invariant inFlight == Kept(w.inFlight, owned - rest) && rawInFlight == Kept(w.rawInFlight, owned - rest)
        decreases |rest|
      {
        var owner :| owner in rest;
        assert owned - (rest - {owner}) == owned - rest + {owner};
        RejectMore(w, owned - rest, owner, requestGenerations, open, installed);
        RejectFlight(owner);
        rest := rest - {owner};
      }
      assert owned - rest == owned;
      RejectAll(w, requestGenerations, installation, owned);
    }

    /** The followers of one leader fail with its installation. */
    method RejectFlight(owner: nat)
      requires owner in flights && owner in requestGenerations
      modifies this`flights, this`inFlight, this`rawInFlight
      ensures var key, raw := requestGenerations[owner].key, old(flights)[owner].raw;
              && flights == old(flights)[owner := Settled(old(flights)[owner], Failure)]
              && inFlight == (if raw then old(inFlight) else Unlink(old(inFlight), key, owner))
              && rawInFlight == (if raw then Unlink(old(rawInFlight), key, owner) else old(rawInFlight))
    {
      hide Unlink, Settled;
      Unregister(owner, requestGenerations[owner].key);
      SettlePromise(owner, Failure);
    }
  }

  /** The flights once the leaders in `gone` have been rejected. */
  ghost function Rejected(flights: map<nat, Flight>, gone: set<nat>): map<nat, Flight> {
    map p | p in flights :: if p in gone then Settled(flights[p], Failure) else flights[p]
  }

  ghost function Kept(inFlight: map<Key, nat>, gone: set<nat>): map<Key, nat> {
    map k | k in inFlight && inFlight[k] !in gone :: inFlight[k]
  }

  lemma RejectNone(w: Work)
    ensures Rejected(w.flights, {}) == w.flights && Kept(w.inFlight, {}) == w.inFlight
    ensures Kept(w.rawInFlight, {}) == w.rawInFlight
  {
  }

  /** A leader is found under its own key, in the map of its kind, or nowhere. */
  lemma KeptMore(inFlight: map<Key, nat>, raw: bool, flights: map<nat, Flight>, asks: Asks, gone: set<nat>, owner: nat)
    requires MapOk(inFlight, raw, flights, asks) && owner in flights && owner in asks
    ensures Kept(inFlight, gone + {owner})
         == if flights[owner].raw == raw then Unlink(Kept(inFlight, gone), asks[owner].key, owner) else Kept(inFlight, gone)
  {
  }

  lemma RejectMore(w: Work, gone: set<nat>, owner: nat, asks: Asks, open: set<nat>, installed: set<nat>)
    requires LinksOk(w, asks, open, installed) && owner in w.flights && owner in asks && owner !in gone
    ensures var key, raw, flights := asks[owner].key, w.flights[owner].raw, Rejected(w.flights, gone);
            && owner in flights && flights[owner] == w.flights[owner]
            && Rejected(w.flights, gone + {owner}) == flights[owner := Settled(w.flights[owner], Failure)]
            && Kept(w.inFlight, gone + {owner})
               == (if raw then Kept(w.inFlight, gone) else Unlink(Kept(w.inFlight, gone), key, owner))
            && Kept(w.rawInFlight, gone + {owner})
               == (if raw then Unlink(Kept(w.rawInFlight, gone), key, owner) else Kept(w.rawInFlight, gone))
  {
    KeptMore(w.inFlight, false, w.flights, asks, gone, owner);
    KeptMore(w.rawInFlight, true, w.flights, asks, gone, owner);
    hide LinksOk, Kept, Settled, Unlink;
  }

  lemma RejectAll(w: Work, asks: Asks, i: nat, owned: set<nat>)
    requires owned == set p | p in w.flights && w.flights[p].registered && p in asks && asks[p].installation == i
    ensures var left := Abandon(w, asks, i);
            && Rejected(w.flights, owned) == left.flights && Kept(w.inFlight, owned) == left.inFlight
            && Kept(w.rawInFlight, owned) == left.rawInFlight
  {
  }

  predicate InTagged(generations: map<Key, nat>, tokens: map<nat, Token>, key: Key, tags: set<Tag>)
    requires key in generations
  {
    generations[key] in tokens && tokens[generations[key]].tags * tags != {}
  }

  lemma TaggedExactly(c: Core, tags: set<Tag>)
    ensures Tagged(c, tags) <= c.current.Keys
    ensures forall k | k in c.current :: k in Tagged(c, tags) <==> InTagged(c.current, c.tokens, k, tags)
  {
  }

  lemma DoneMore(doomed: set<Key>, rest: set<Key>, key: Key)
    requires key in rest
    ensures doomed - (rest - {key}) == if key in doomed then doomed - rest + {key} else doomed - rest
  {
  }

  lemma LessKeys<V>(m: map<Key, V>, done: set<Key>, key: Key)
    ensures m - done - {key} == m - (done + {key})
  {
  }
}
