/** The rate-limit plugin as the object its hooks and timers update; every callback is one step of the specification. */
module RateLimitPlugin {
  import opened Collections
  import opened InsertionMap
  import opened Fifo
  import opened RollingWindow
  import opened RateLimit

  class Plugin {
    const o: Options
    const clock: Clock
    var records: Map<Record>
    var installed: set<nat>
    var tick: nat
    ghost var admissions: map<Key, seq<real>>
    ghost var history: History

    ghost function State(): Limiter
      reads this
    {
      Limiter(records, installed, tick, admissions, history)
    }

    ghost predicate Ok()
      reads this
    {
      Inv(State(), clock, o) && o.Normalized() && NonDecreasing(clock)
    }

    constructor (options: Options, readings: Clock)
      requires options.Normalized() && NonDecreasing(readings)
      ensures Ok() && o == options && clock == readings && State() == EMPTY
    {
      EmptyInv(readings, options);
      o, clock := options, readings;
      records, installed, tick := Map([], map[]), {}, 0;
      admissions, history := map[], History(map[], map[], map[], {});
    }

    method Install(installation: nat)
      requires Ok() && installation !in installed
      modifies this
      ensures Ok() && State() == Step(old(State()), Event.Install(installation), clock, o)
    {
      InstallInv(State(), installation, clock, o);
      installed := installed + {installation};
    }

    /** One reading of the wall clock. */
    method Now() returns (now: real)
      modifies this`tick
      ensures now == clock(old(tick)) && tick == old(tick) + 1
    {
      now := clock(tick);
      tick := tick + 1;
    }

    method PruneTimestamps(r: Record, now: real) returns (p: Record)
      requires r.head <= |r.timestamps|
      ensures p == Prune(r, now, o)
    {
      var head := r.head;
      while head < |r.timestamps| && r.timestamps[head] <= now - o.interval
        invariant head <= |r.timestamps|
        invariant ExpiredHead(r.timestamps, head, now - o.interval) == ExpiredHead(r.timestamps, r.head, now - o.interval)
      {
        head := head + 1;
      }
      p := r.(head := head);
      if head >= 1024 && head * 2 >= |r.timestamps| {
        p := r.(timestamps := r.timestamps[head..], head := 0);
      }
    }

    /** One pass over the records, oldest first, pruning each and deleting idle ones until at most `max` remain. */
    method TrimRecords(max: nat, now: real)
      requires Heads(records)
      modifies this`records
      ensures records == Trim(old(records), max, 0, now, o)
    {
      var i := 0;
      hide Prune, Delete, Set;
      while i < |records.order| && |records.order| > max
        invariant Heads(records) && i <= |records.order|
        invariant Trim(records, max, i, now, o) == Trim(old(records), max, 0, now, o)
        decreases |records.order| - i
      {
        var key := records.order[i];
        PruneHeads(records, key, now, o);
        SetOrder(records, key, now, o);
        var r := PruneTimestamps(records.at[key], now);
        if Idle(r, now) {
          records := Delete(records, key);
        } else {
          records := Set(records, key, r);
          i := i + 1;
        }
      }
    }

    /** Finds or creates the record of a key. */
    method GetRecord(key: Key, now: real)
      requires Heads(records) && o.Normalized()
      modifies this`records
      ensures records == Lookup(old(records), key, now, o)
    {
      if key !in records.at {
        TrimRecords(o.maxKeys - 1, now);
        records := Set(records, key, FRESH_RECORD);
      }
    }

    /** Stores a record; `served` and `times` only enter the bookkeeping. */
    method Put(key: Key, r: Record, ghost served: seq<Ticket>, ghost times: seq<real>)
      modifies this`records, this`admissions, this`history
      ensures State() == Served(old(State()), key, Flow(r, tick, served, times))
      ensures key in records.at && records.at[key] == r
    {
      records := Set(records, key, r);
      admissions := admissions[key := At(admissions, key) + times];
      history := Grant(history, served, key);
    }

    /** Arms the timer of a record with waiters, unless they can be served right away. */
    method ScheduleRecord(key: Key)
      requires key in records.at && records.at[key].head <= |records.at[key].timestamps|
      modifies this`records, this`tick, this`admissions, this`history
      ensures State() == Served(old(State()), key, Schedule(old(records).at[key], old(tick), clock, o))
      decreases |records.at[key].waiters|, 2
    {
      hide Prune, Arm, Served;
      var r := records.at[key];
      if |r.waiters| == 0 || r.timer.Some? {
        Put(key, r, [], []);
        return;
      }
      ghost var was := State();
      var now := Now();
      PruneLive(r, now, o);
      var p := PruneTimestamps(r, now);
      ServedTick(was, tick, key, Flow(p, tick, [], []));
      Put(key, p, [], []);
      ArmRecord(key, now);
      ServedBoth(was, key, Flow(p, was.tick + 1, [], []), Arm(p, now, was.tick + 1, clock, o));
    }

    method ArmRecord(key: Key, now: real)
      requires key in records.at && Pruned(records.at[key], now, o) && records.at[key].waiters != []
      modifies this`records, this`tick, this`admissions, this`history
      ensures State() == Served(old(State()), key, Arm(old(records).at[key], now, old(tick), clock, o))
      decreases |records.at[key].waiters|, 1
    {
      hide Prune, Drain, Served;
      var r := records.at[key];
      if Cooling(r, now) {
        Put(key, r.(timer := Some(now + Min(r.cooldownUntil.value - now, MAX_TIMER_DELAY))), [], []);
        return;
      }
      var c := r.(cooldownUntil := None);
      if ActiveCount(c) < o.maxRequests {
        ghost var was := State();
        PruneAgain(c, now, o);
        Put(key, c, [], []);
        DrainRecord(key, now);
        ServedBoth(was, key, Flow(c, was.tick, [], []), Drain(c, now, was.tick, clock, o));
        return;
      }
      var resetAt := (if c.head == |c.timestamps| then now else c.timestamps[c.head]) + o.interval;
      Put(key, c.(timer := Some(now + Max(0.0, Min(resetAt - now, MAX_TIMER_DELAY)))), [], []);
    }

    /** Serves as many waiters as the window has room for, and schedules the rest. */
    method DrainRecord(key: Key, now: real)
      requires key in records.at && records.at[key].head <= |records.at[key].timestamps|
      modifies this`records, this`tick, this`admissions, this`history
      ensures State() == Served(old(State()), key, Drain(old(records).at[key], now, old(tick), clock, o))
      decreases |records.at[key].waiters|, if Admits(records.at[key], now, o) then 0 else 3
    {
      hide Prune, Schedule, Served, AdmitFirst, Repeat;
      ghost var was := State();
      PruneLive(records.at[key], now, o);
      var p := PruneTimestamps(records.at[key], now);
      if Cooling(p, now) {
        Put(key, p, [], []);
        ScheduleRecord(key);
        ServedBoth(was, key, Flow(p, was.tick, [], []), Schedule(p, was.tick, clock, o));
        return;
      }
      var c := p.(cooldownUntil := None);
      Put(key, c, [], []);
      AdmitWaiters(key, now);
      ghost var k := Room(c, o);
      ghost var f := Flow(AdmitFirst(c, k, now), was.tick, c.waiters[..k], Repeat(now, k));
      ServedBoth(was, key, Flow(c, was.tick, [], []), f);
      AdmitFirstKeeps(c, k, now);
      ScheduleRecord(key);
      ServedBoth(was, key, f, Schedule(f.record, was.tick, clock, o));
    }

    method AdmitWaiters(key: Key, now: real)
      requires key in records.at && records.at[key].head <= |records.at[key].timestamps|
      modifies this`records, this`admissions, this`history
      ensures var c := old(records).at[key];
              var k := Room(c, o);
              && State() == Served(old(State()), key, Flow(AdmitFirst(c, k, now), tick, c.waiters[..k], Repeat(now, k)))
              && key in records.at && records.at[key] == AdmitFirst(c, k, now)
    {
      hide Served, AdmitFirst, Repeat;
      ghost var was := State();
      ghost var c := records.at[key];
      ghost var k := 0;
      AdmitNone(c, now);
      Put(key, records.at[key], [], []);
      while |records.at[key].waiters| > 0 && ActiveCount(records.at[key]) < o.maxRequests
        invariant k <= |c.waiters| && key in records.at && records.at[key] == AdmitFirst(c, k, now)
        invariant records.at[key].waiters == c.waiters[k..] && ActiveCount(records.at[key]) == ActiveCount(c) + k
        invariant k == 0 || ActiveCount(c) + k <= o.maxRequests
        invariant State() == Served(was, key, Flow(AdmitFirst(c, k, now), was.tick, c.waiters[..k], Repeat(now, k)))
        decreases |records.at[key].waiters|
      {
        AdmitAnother(c, k, now);
        ghost var f := Flow(AdmitFirst(c, k, now), was.tick, c.waiters[..k], Repeat(now, k));
        ghost var g := Flow(AdmitFirst(f.record, 1, now), was.tick, [f.record.waiters[0]], [now]);
        AdmitOne(key, now);
        ServedBoth(was, key, f, g);
        k := k + 1;
      }
    }

    /** Shifts the first waiter off the queue and logs its admission. */
    method AdmitOne(key: Key, now: real)
      requires key in records.at && records.at[key].waiters != []
      modifies this`records, this`admissions, this`history
      ensures var r := old(records).at[key];
              && State() == Served(old(State()), key, Flow(AdmitFirst(r, 1, now), tick, [r.waiters[0]], [now]))
              && key in records.at && records.at[key] == AdmitFirst(r, 1, now)
    {
      var r := records.at[key];
      assert Repeat(now, 1) == [now];
      var rest := r.waiters[1..];
      Put(key, r.(waiters := rest, timestamps := r.timestamps + [now],
                  timer := if |rest| == 0 then None else r.timer), [r.waiters[0]], [now]);
    }

    /** The part of the transport hook that runs on the record found and pruned. */
    method Answers(t: Ticket, key: Key, refused: bool, now: real) returns (answer: Answer)
      requires Heads(records) && key in records.at
      modifies this`records, this`tick, this`admissions, this`history
      ensures (State(), answer) == Answering(old(State()), t, key, refused, now, clock, o)
    {
      var r := records.at[key];
      assert r.head <= |r.timestamps|;
      hide Heads, Schedule, Served, Arrive;
      if |r.waiters| == 0 && Rested(r, now) && ActiveCount(r) < o.maxRequests {
        Put(key, r.(timestamps := r.timestamps + [now]), [], [now]);
        return Admitted;
      }
      if refused || |r.waiters| >= o.maxQueue {
        return Rejected;
      }
      Enqueue(t, key);
      return Queued;
    }

    /** Joins the queue and makes sure that somebody will serve it. */
    method Enqueue(t: Ticket, key: Key)
      requires key in records.at && records.at[key].head <= |records.at[key].timestamps|
      modifies this`records, this`tick, this`admissions, this`history
      ensures var q := old(records).at[key].(waiters := old(records).at[key].waiters + [t]);
              State() == Served(old(State()).(records := Set(old(records), key, q), history := Arrive(old(history), t, key)),
                                key, Schedule(q, old(tick) + 1, clock, o))
    {
      hide Schedule, Served, Arrive;
      var startedAt := Now();
      var q := records.at[key].(waiters := records.at[key].waiters + [t]);
      records := Set(records, key, q);
      history := Arrive(history, t, key);
      ServedTick(State(), old(tick), key, Schedule(q, tick, clock, o));
      ScheduleRecord(key);
    }

    method OnTransport(t: Ticket, key: Key, refused: bool) returns (answer: Answer)
      requires Ok() && IsNew(State(), t)
      modifies this
      ensures Ok() && Heads(old(records)) && (State(), answer) == Request(old(State()), t, key, refused, clock, o)
    {
      hide Inv, Heads, Lookup, Answering, NonDecreasing, IsNew, Prune;
      RequestInv(State(), t, key, refused, clock, o);
      FoundHeads(State(), key, clock, o);
      var now := Now();
      GetRecord(key, now);
      var r := PruneTimestamps(records.at[key], now);
      records := Set(records, key, r);
      answer := Answers(t, key, refused, now);
    }

    /** A 429 answer: `delay` is what its Retry-After header asks for. */
    method OnRetryAfter(key: Key, delay: real)
      requires Ok()
      modifies this
      ensures Ok() && Heads(old(records)) && State() == RetryAfter(old(State()), key, delay, clock, o)
    {
      hide Inv, Heads, Lookup, NonDecreasing, Schedule, Served;
      RetryAfterInv(State(), key, delay, clock, o);
      FoundHeads(State(), key, clock, o);
      var now := Now();
      GetRecord(key, now);
      var r := records.at[key];
      var until := now + Min(delay, o.maxRetryAfter);
      if (if r.cooldownUntil.Some? then r.cooldownUntil.value else 0.0) >= until {
        return;
      }
      var c := r.(cooldownUntil := Some(until), timer := None);
      ServedSet(State(), key, c, Schedule(c, tick, clock, o));
      records := Set(records, key, c);
      ScheduleRecord(key);
    }

    method OnTimer(key: Key)
      requires Ok() && Enabled(State(), Fire(key))
      modifies this
      ensures Ok() && State() == Step(old(State()), Fire(key), clock, o)
    {
      hide Inv, Heads, NonDecreasing, Drain, Served;
      TimerInv(State(), key, clock, o);
      FoundHeads(State(), key, clock, o);
      ghost var was := State();
      var c := records.at[key].(timer := None);
      var now := Now();
      ServedTick(was, tick, key, Drain(c, now, tick, clock, o));
      ServedSet(State(), key, c, Drain(c, now, tick, clock, o));
      records := Set(records, key, c);
      DrainRecord(key, now);
    }

    /** What a key has left, and how many wait for it. */
    method GetState(key: Key) returns (remaining: int, queued: nat)
      requires Ok()
      modifies this
      ensures Ok() && Heads(old(records)) && State() == Inspect(old(State()), key, clock, o)
      ensures remaining == Remaining(old(State()), key, clock, o) && queued == |RecordAt(old(records), key).waiters|
    {
      hide Inv, Heads, NonDecreasing;
      InspectInv(State(), key, clock, o);
      FoundHeads(State(), key, clock, o);
      if key !in records.at {
        return o.maxRequests, 0;
      }
      var now := Now();
      var r := PruneTimestamps(records.at[key], now);
      r := if Rested(r, now) then r.(cooldownUntil := None) else r;
      records := Set(records, key, r);
      var left := if o.maxRequests >= ActiveCount(r) then o.maxRequests - ActiveCount(r) else 0;
      return if Cooling(r, now) then 0 else left, |r.waiters|;
    }

    /** An abort or a timeout takes one waiter out of the queue it stands in. */
    method OnLeave(t: Ticket, key: Key)
      requires Ok() && key in records.at && t in records.at[key].waiters
      modifies this
      ensures Ok() && State() == Cancel(old(State()), {t})
    {
      hide AllOk, QueuesOk, Valid, Cancel, AllWaiting, NonDecreasing, Left;
      WaitsOnce(State(), t, key, clock, o);
      CancelInv(State(), {t}, clock, o);
      CancelOne(State(), t, key, clock, o);
      records := Set(records, key, Left(records.at[key], {t}));
      history := history.(cancelled := history.cancelled + {t});
    }

    /** Removal of one installation: every queue is walked, its entries leave, an emptied queue loses its timer. */
    method Uninstall(installation: nat)
      requires Ok() && installation in installed
      modifies this
      ensures Ok() && State() == Remove(old(State()), installation)
    {
      ghost var gone := OwnWaiters(State(), installation);
      RemoveInv(State(), installation, clock, o);
      hide AllOk, QueuesOk, NonDecreasing, OwnWaiters;
      SweepRecords(installation);
      hide Valid;
      history := history.(cancelled := history.cancelled + gone);
      installed := installed - {installation};
      if installed == {} {
        records := Map([], map[]);
        admissions := map[];
      }
    }

    method SweepRecords(installation: nat)
      requires Valid(records) && AllOk(records, admissions, Last(clock, tick), o)
      modifies this`records
      ensures records == Cancel(old(State()), OwnWaiters(old(State()), installation)).records
    {
      ghost var was, gone := State(), OwnWaiters(State(), installation);
      var keys := records.order;
      assert Distinct(keys) && forall k :: k in keys <==> k in was.records.at;
      assert Swept(was.records, gone, {}).at == was.records.at;
      hide Valid, Cancel, Swept, AllOk, OwnWaiters;
      ghost var done: set<Key> := {};
      var i := 0;
      while i < |keys|
        invariant i <= |keys| && forall k :: k in done <==> k in keys[..i]
        invariant records == Swept(was.records, gone, done)
      {
        assert keys[i] !in keys[..i] && keys[..i + 1] == keys[..i] + [keys[i]];
        SweepRecord(keys[i], installation, was, done);
        done := done + {keys[i]};
        i := i + 1;
      }
      assert keys[..i] == keys;
      SweptAll(was, gone, done);
    }

    method SweepRecord(key: Key, installation: nat, ghost was: Limiter, ghost done: set<Key>)
      requires key in was.records.at && key !in done
      requires AllOk(was.records, was.admissions, Last(clock, was.tick), o)
      requires records == Swept(was.records, OwnWaiters(was, installation), done)
      modifies this`records
      ensures records == Swept(was.records, OwnWaiters(was, installation), done + {key})
    {
      SweepOne(was, installation, done, key);
      IdleUntimed(was, key, Last(clock, was.tick), o);
      hide Swept, AllOk, OwnWaiters;
      var r := records.at[key];
      var kept := KeepOthers(r.waiters, installation, OwnWaiters(was, installation));
      var timer := if |kept| == 0 then None else r.timer;
      records := Set(records, key, r.(waiters := kept, timer := timer));
    }
  }

  // ---------- Composing flows ----------

  lemma SetOrder(m: Map<Record>, key: Key, now: real, o: Options)
    requires Heads(m) && key in m.at
    ensures |Set(m, key, Prune(m.at[key], now, o)).order| == |m.order|
  {
  }

  lemma ServedTick(s: Limiter, tick: nat, key: Key, f: Flow)
    ensures Served(s.(tick := tick), key, f) == Served(s, key, f)
  {
  }

  /** One flow after another is the flow that serves both. */
  lemma ServedBoth(s: Limiter, key: Key, f: Flow, g: Flow)
    requires key in s.records.at
    ensures Served(Served(s, key, f), key, g)
         == Served(s, key, Flow(g.record, g.tick, f.served + g.served, f.times + g.times))
    ensures f.served == [] && f.times == [] ==> Served(Served(s, key, f), key, g) == Served(s, key, g)
    ensures key in Served(s, key, f).records.at && Served(s, key, f).records.at[key] == f.record
  {
    var b := Flow(g.record, g.tick, f.served + g.served, f.times + g.times);
    assert At(s.admissions, key) + f.times + g.times == At(s.admissions, key) + (f.times + g.times);
    assert At(s.history.granted, key) + f.served + g.served == At(s.history.granted, key) + (f.served + g.served);
    assert Served(Served(s, key, f), key, g) == Served(s, key, b);
    assert f.served == [] && f.times == [] ==> f.served + g.served == g.served && f.times + g.times == g.times;
  }

  lemma AdmitNone(c: Record, now: real)
    ensures AdmitFirst(c, 0, now) == c && Repeat(now, 0) == [] && c.waiters[..0] == [] && c.waiters == c.waiters[0..]
  {
  }

  lemma AdmitAnother(c: Record, k: nat, now: real)
    requires k < |c.waiters|
    ensures var r := AdmitFirst(c, k, now);
            && r.waiters == c.waiters[k..] != [] && ActiveCount(r) == ActiveCount(c) + k
            && AdmitFirst(r, 1, now) == AdmitFirst(c, k + 1, now)
            && c.waiters[..k] + [r.waiters[0]] == c.waiters[..k + 1]
            && Repeat(now, k) + [now] == Repeat(now, k + 1)
            && AdmitFirst(c, k + 1, now).waiters == c.waiters[k + 1..]
            && ActiveCount(AdmitFirst(c, k + 1, now)) == ActiveCount(c) + k + 1
  {
  }

  lemma AdmitFirstKeeps(c: Record, k: nat, now: real)
    requires c.head <= |c.timestamps| && k <= |c.waiters|
    ensures var r := AdmitFirst(c, k, now); r.head <= |r.timestamps| && |r.waiters| == |c.waiters| - k
  {
  }

  // ---------- Helpers of the hooks ----------

  /** The record of a key is well formed before and after it is found. */
  lemma FoundHeads(s: Limiter, key: Key, clock: Clock, o: Options)
    requires Inv(s, clock, o) && o.Normalized() && NonDecreasing(clock)
    ensures Heads(s.records)
    ensures var m := Lookup(s.records, key, clock(s.tick), o);
            && key in m.at && m.at[key].head <= |m.at[key].timestamps|
            && Heads(Set(m, key, Prune(m.at[key], clock(s.tick), o)))
            && (key in s.records.at ==> s.records.at[key].head <= |s.records.at[key].timestamps|)
  {
    LookupInv(s, key, clock, o);
    PruneHeads(Lookup(s.records, key, clock(s.tick), o), key, clock(s.tick), o);
    hide Inv, Lookup, Valid, Prune;
  }

  lemma ServedSet(s: Limiter, key: Key, r: Record, f: Flow)
    requires key in s.records.at
    ensures Served(s.(records := Set(s.records, key, r)), key, f) == Served(s, key, f)
  {
  }

  lemma IdleUntimed(s: Limiter, key: Key, last: real, o: Options)
    requires AllOk(s.records, s.admissions, last, o) && key in s.records.at
    ensures s.records.at[key].waiters == [] ==> s.records.at[key].timer == None
  {
    assert KeyOk(RecordAt(s.records, key), At(s.admissions, key), last, o);
  }

  /** The records once the queues of the keys in `done` have been swept. */
  ghost function Swept(m: Map<Record>, gone: set<Ticket>, done: set<Key>): Map<Record> {
    Map(m.order, map k | k in m.at :: if k in done then Left(m.at[k], gone) else m.at[k])
  }

  lemma SweptAll(s: Limiter, gone: set<Ticket>, done: set<Key>)
    requires forall k | k in s.records.at :: k in done
    ensures Cancel(s, gone) == s.(records := Swept(s.records, gone, done),
                                  history := s.history.(cancelled := s.history.cancelled + gone))
  {
  }

  lemma SweepOne(s: Limiter, installation: nat, done: set<Key>, key: Key)
    requires key in s.records.at
    ensures var gone := OwnWaiters(s, installation);
            var m := Swept(s.records, gone, done);
            && key in m.at
            && (key !in done ==> m.at[key] == s.records.at[key])
            && (forall t | t in s.records.at[key].waiters :: t in gone <==> t.installation == installation)
            && Set(m, key, Left(s.records.at[key], gone)) == Swept(s.records, gone, done + {key})
  {
  }

  lemma CancelOne(s: Limiter, t: Ticket, key: Key, clock: Clock, o: Options)
    requires key in s.records.at && AllOk(s.records, s.admissions, Last(clock, s.tick), o)
    requires forall k | k in s.records.at && k != key :: Without(s.records.at[k].waiters, {t}) == s.records.at[k].waiters
    ensures Cancel(s, {t}) == s.(records := Set(s.records, key, Left(s.records.at[key], {t})),
                                 history := s.history.(cancelled := s.history.cancelled + {t}))
  {
    forall k | k in s.records.at && k != key ensures Left(s.records.at[k], {t}) == s.records.at[k] {
      IdleUntimed(s, k, Last(clock, s.tick), o);
    }
    hide AllOk;
    assert Cancel(s, {t}).records.at == Set(s.records, key, Left(s.records.at[key], {t})).at;
  }

  /** A waiter stands in one queue only. */
  lemma WaitsOnce(s: Limiter, t: Ticket, key: Key, clock: Clock, o: Options)
    requires Inv(s, clock, o) && key in s.records.at && t in s.records.at[key].waiters
    ensures AllWaiting(s, {t})
    ensures forall k | k in s.records.at && k != key :: Without(s.records.at[k].waiters, {t}) == s.records.at[k].waiters
  {
    forall k | k in s.records.at && t in s.records.at[k].waiters
      ensures t in s.history.arrival && s.history.arrival[t] == k
    {
      assert QueueOk(RecordAt(s.records, k).waiters, s.installed, s.history, k, o);
      WaiterArrived(s.records.at[k].waiters, s.history, k);
    }
    forall k | k in s.records.at && k != key
      ensures Without(s.records.at[k].waiters, {t}) == s.records.at[k].waiters
    {
      WithoutNone(s.records.at[k].waiters, {t});
    }
  }
}
