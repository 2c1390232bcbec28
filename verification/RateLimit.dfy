/** The rolling-window rate limiter: one record per key, created on demand, dropped when idle. */
module RateLimit {
  import opened Collections
  import opened InsertionMap
  import opened Fifo
  import opened RollingWindow

  /** What the installations of one plugin share. `tick` counts clock readings; `admissions` and `history` are
      bookkeeping of the specification. */
  datatype Limiter = Limiter(records: Map<Record>, installed: set<nat>, tick: nat,
                             admissions: map<Key, seq<real>>, history: History)

  datatype Answer = Admitted | Queued | Rejected

  const EMPTY := Limiter(Map([], map[]), {}, 0, map[], History(map[], map[], map[], {}))

  // ---------- Steps ----------

  predicate Rested(r: Record, now: real) {
    (if r.cooldownUntil.Some? then r.cooldownUntil.value else 0.0) <= now
  }

  predicate Idle(r: Record, now: real) {
    r.waiters == [] && ActiveCount(r) == 0 && Rested(r, now)
  }

  ghost predicate Heads(m: Map<Record>) {
    Valid(m) && forall k | k in m.at :: m.at[k].head <= |m.at[k].timestamps|
  }

  /** One pass over the records, oldest first, pruning each and deleting idle ones while more than `max` remain. */
  function Trim(m: Map<Record>, max: nat, i: nat, now: real, o: Options): Map<Record>
    requires Heads(m) && i <= |m.order|
    decreases |m.order| - i
  {
    if i == |m.order| || |m.order| <= max then m
    else
      var key := m.order[i];
      var r := Prune(m.at[key], now, o);
      PruneHeads(m, key, now, o);
      if Idle(r, now) then Trim(Delete(m, key), max, i, now, o)
      else Trim(Set(m, key, r), max, i + 1, now, o)
  }

  lemma PruneHeads(m: Map<Record>, key: Key, now: real, o: Options)
    requires Heads(m) && key in m.at
    ensures Heads(Delete(m, key)) && |Delete(m, key).order| == |m.order| - 1
    ensures Heads(Set(m, key, Prune(m.at[key], now, o)))
    ensures forall k :: RecordAt(Delete(m, key), k) == if k == key then FRESH_RECORD else RecordAt(m, k)
  {
    DeleteValid(m, key);
    PruneLive(m.at[key], now, o);
    SetValid(m, key, Prune(m.at[key], now, o));
  }

  function Lookup(m: Map<Record>, key: Key, now: real, o: Options): Map<Record>
    requires Heads(m) && o.Normalized()
  {
    if key in m.at then m else Set(Trim(m, o.maxKeys - 1, 0, now, o), key, FRESH_RECORD)
  }

  /** The record of `key` after some scheduling, which may have admitted waiters. */
  function Served(s: Limiter, key: Key, f: Flow): Limiter {
    s.(records := Set(s.records, key, f.record), tick := f.tick,
       admissions := s.admissions[key := At(s.admissions, key) + f.times], history := Grant(s.history, f.served, key))
  }

  /** The transport hook; `refused` stands for an aborted signal or a queue timeout that is not positive. */
  function Request(s: Limiter, t: Ticket, key: Key, refused: bool, clock: Clock, o: Options): (Limiter, Answer)
    requires Heads(s.records) && o.Normalized()
  {
    var now := clock(s.tick);
    var m := Lookup(s.records, key, now, o);
    LookupHeads(s.records, key, now, o);
    PruneHeads(m, key, now, o);
    Answering(s.(records := Set(m, key, Prune(m.at[key], now, o)), tick := s.tick + 1), t, key, refused, now, clock, o)
  }

  function Answering(s: Limiter, t: Ticket, key: Key, refused: bool, now: real, clock: Clock, o: Options)
    : (Limiter, Answer)
    requires Heads(s.records) && key in s.records.at
  {
    var m, r := s.records, s.records.at[key];
    if r.waiters == [] && Rested(r, now) && ActiveCount(r) < o.maxRequests then
      (Served(s, key, Flow(r.(timestamps := r.timestamps + [now]), s.tick, [], [now])), Admitted)
    else if refused || |r.waiters| >= o.maxQueue then (s, Rejected)
    else
      var q := r.(waiters := r.waiters + [t]);
      var joined := s.(records := Set(m, key, q), history := Arrive(s.history, t, key));
      (Served(joined, key, Schedule(q, s.tick + 1, clock, o)), Queued)
  }

  /** A 429 answer with Retry-After extends the cooldown of its key and re-arms the timer. */
  function RetryAfter(s: Limiter, key: Key, delay: real, clock: Clock, o: Options): Limiter
    requires Heads(s.records) && o.Normalized()
  {
    var now := clock(s.tick);
    LookupHeads(s.records, key, now, o);
    Cooldown(s.(records := Lookup(s.records, key, now, o), tick := s.tick + 1), key, now + Min(delay, o.maxRetryAfter),
             clock, o)
  }

  function Cooldown(s: Limiter, key: Key, until: real, clock: Clock, o: Options): Limiter
    requires Heads(s.records) && key in s.records.at
  {
    var r := s.records.at[key];
    if (if r.cooldownUntil.Some? then r.cooldownUntil.value else 0.0) >= until then s
    else Served(s, key, Schedule(r.(cooldownUntil := Some(until), timer := None), s.tick, clock, o))
  }

  function TimerFires(s: Limiter, key: Key, clock: Clock, o: Options): Limiter
    requires Heads(s.records) && key in s.records.at
  {
    Served(s, key, Drain(s.records.at[key].(timer := None), clock(s.tick), s.tick + 1, clock, o))
  }

  /** Reading the state of a key prunes its log and clears an expired cooldown. */
  function Inspect(s: Limiter, key: Key, clock: Clock, o: Options): Limiter
    requires Heads(s.records)
  {
    if key !in s.records.at then s
    else
      var now := clock(s.tick);
      var r := Prune(s.records.at[key], now, o);
      s.(records := Set(s.records, key, if Rested(r, now) then r.(cooldownUntil := None) else r), tick := s.tick + 1)
  }

  function Remaining(s: Limiter, key: Key, clock: Clock, o: Options): int
    requires Heads(s.records)
  {
    if key !in s.records.at then o.maxRequests
    else
      var r := Inspect(s, key, clock, o).records.at[key];
      if Cooling(r, clock(s.tick)) then 0
      else if o.maxRequests >= ActiveCount(r) then o.maxRequests - ActiveCount(r) else 0
  }

  function Left(r: Record, gone: set<Ticket>): Record {
    var kept := Without(r.waiters, gone);
    r.(waiters := kept, timer := if kept == [] then None else r.timer)
  }

  /** Some waiters leave their queues: an abort, a timeout, or the removal of their installation. */
  function Cancel(s: Limiter, gone: set<Ticket>): Limiter {
    s.(records := s.records.(at := map k | k in s.records.at :: Left(s.records.at[k], gone)),
       history := s.history.(cancelled := s.history.cancelled + gone))
  }

  /** The waiters of the installation leave; the last installation to go drops all records. */
  function Remove(s: Limiter, installation: nat): Limiter {
    var r := Cancel(s, OwnWaiters(s, installation));
    var left := r.(installed := r.installed - {installation});
    if left.installed == {} then left.(records := Map([], map[]), admissions := map[]) else left
  }

  function OwnWaiters(s: Limiter, installation: nat): set<Ticket> {
    set k, t | k in s.records.at && t in s.records.at[k].waiters && t.installation == installation :: t
  }

  // ---------- The invariant ----------

  function RecordAt(m: Map<Record>, key: Key): Record {
    if key in m.at then m.at[key] else FRESH_RECORD
  }

  ghost predicate KeyOk(r: Record, h: seq<real>, last: real, o: Options) {
    RecordOk(r, h, last, o) && TimerOk(r, last, o)
  }

  /** A key without a record is in order as if it had an untouched one: none of its admissions matters any more. */
  ghost predicate AllOk(m: Map<Record>, logs: map<Key, seq<real>>, last: real, o: Options) {
    forall k :: KeyOk(RecordAt(m, k), At(logs, k), last, o)
  }

  ghost predicate QueueOk(waiters: seq<Ticket>, installed: set<nat>, h: History, key: Key, o: Options) {
    && FifoOk(waiters, h, key) && |waiters| <= o.maxQueue
    && forall t | t in waiters :: t.installation in installed
  }

  ghost predicate QueuesOk(s: Limiter, o: Options) {
    && (forall k :: QueueOk(RecordAt(s.records, k).waiters, s.installed, s.history, k, o))
    && forall t | t in s.history.cancelled :: t in s.history.arrival
  }

  ghost predicate Inv(s: Limiter, clock: Clock, o: Options) {
    && Valid(s.records) && AllOk(s.records, s.admissions, Last(clock, s.tick), o) && QueuesOk(s, o)
  }

  // ---------- Every step keeps the invariant ----------

  lemma InvHeads(m: Map<Record>, logs: map<Key, seq<real>>, last: real, o: Options)
    requires Valid(m) && AllOk(m, logs, last, o)
    ensures Heads(m)
  {
    forall k | k in m.at ensures m.at[k].head <= |m.at[k].timestamps| {
      assert KeyOk(RecordAt(m, k), At(logs, k), last, o);
    }
    hide Valid, WindowOk;
  }

  lemma LaterAll(m: Map<Record>, logs: map<Key, seq<real>>, last: real, now: real, o: Options)
    requires AllOk(m, logs, last, o) && last <= now
    ensures AllOk(m, logs, now, o)
  {
    forall k ensures KeyOk(RecordAt(m, k), At(logs, k), now, o) {
      assert KeyOk(RecordAt(m, k), At(logs, k), last, o);
      LaterOk(RecordAt(m, k), At(logs, k), last, now, o);
    }
    hide RecordOk, TimerOk;
  }

  /** Only the record and the log of one key change. */
  ghost predicate OnlyKey(m: Map<Record>, logs: map<Key, seq<real>>, m': Map<Record>, logs': map<Key, seq<real>>,
                          key: Key) {
    forall k | k != key :: RecordAt(m', k) == RecordAt(m, k) && At(logs', k) == At(logs, k)
  }

  lemma OneKey(m: Map<Record>, logs: map<Key, seq<real>>, m': Map<Record>, logs': map<Key, seq<real>>, key: Key,
               last: real, now: real, o: Options)
    requires AllOk(m, logs, last, o) && last <= now && OnlyKey(m, logs, m', logs', key)
    requires KeyOk(RecordAt(m', key), At(logs', key), now, o)
    ensures AllOk(m', logs', now, o)
  {
    LaterAll(m, logs, last, now, o);
    forall k ensures KeyOk(RecordAt(m', k), At(logs', k), now, o) {
      assert KeyOk(RecordAt(m, k), At(logs, k), now, o);
    }
    hide KeyOk, RecordAt, At;
  }

  lemma PruneKey(r: Record, h: seq<real>, now: real, o: Options)
    requires KeyOk(r, h, now, o)
    ensures KeyOk(Prune(r, now, o), h, now, o)
    ensures Pruned(Prune(r, now, o), now, o) && Prune(r, now, o).waiters == r.waiters
    ensures Idle(Prune(r, now, o), now) ==> KeyOk(FRESH_RECORD, h, now, o)
  {
    PruneLive(r, now, o);
    PruneOk(r, h, now, now, o);
    var p := Prune(r, now, o);
    assert ActiveCount(p) == 0 ==> Live(p) == [] == Live(FRESH_RECORD);
    hide Prune, WindowOk;
  }

  lemma {:induction false} TrimOk(m: Map<Record>, max: nat, i: nat, logs: map<Key, seq<real>>, now: real, o: Options)
    requires Heads(m) && i <= |m.order| && AllOk(m, logs, now, o)
    ensures var t := Trim(m, max, i, now, o);
            && Heads(t) && AllOk(t, logs, now, o)
            && SameWaiters(m, t)
            && forall k | k in t.at :: k in m.at
    decreases |m.order| - i
  {
    hide AllOk, KeyOk, SameWaiters, Idle, Prune, Delete, Set;
    if i < |m.order| && |m.order| > max {
      var key := m.order[i];
      var r := Prune(m.at[key], now, o);
      PruneHeads(m, key, now, o);
      TrimStep(m, key, logs, now, o);
      hide Heads, Valid;
      if Idle(r, now) {
        TrimOk(Delete(m, key), max, i, logs, now, o);
        SameWaitersOn(m, Delete(m, key), Trim(m, max, i, now, o));
      } else {
        TrimOk(Set(m, key, r), max, i + 1, logs, now, o);
        SameWaitersOn(m, Set(m, key, r), Trim(m, max, i, now, o));
      }
    } else {
      SameWaitersSelf(m);
    }
  }

  lemma SameWaitersOn(m: Map<Record>, m': Map<Record>, m'': Map<Record>)
    requires SameWaiters(m, m') && SameWaiters(m', m'')
    ensures SameWaiters(m, m'')
  {
  }

  lemma TrimStep(m: Map<Record>, key: Key, logs: map<Key, seq<real>>, now: real, o: Options)
    requires Heads(m) && key in m.at && AllOk(m, logs, now, o)
    ensures var r := Prune(m.at[key], now, o);
            var next := if Idle(r, now) then Delete(m, key) else Set(m, key, r);
            && AllOk(next, logs, now, o) && SameWaiters(m, next)
            && |next.order| == |m.order| - (if Idle(r, now) then 1 else 0)
            && forall k | k in next.at :: k in m.at
  {
    var r := Prune(m.at[key], now, o);
    PruneHeads(m, key, now, o);
    KeyAt(m, logs, key, now, o);
    PruneKey(m.at[key], At(logs, key), now, o);
    DeleteValid(m, key);
    var next := if Idle(r, now) then Delete(m, key) else Set(m, key, r);
    assert RecordAt(next, key).waiters == RecordAt(m, key).waiters;
    hide KeyOk, AllOk, Delete, Prune;
    OneKey(m, logs, next, logs, key, now, now, o);
  }

  lemma LookupHeads(m: Map<Record>, key: Key, now: real, o: Options)
    requires Heads(m) && o.Normalized()
    ensures var l := Lookup(m, key, now, o); Heads(l) && Valid(l) && key in l.at
  {
    if key !in m.at {
      TrimHeads(m, o.maxKeys - 1, 0, now, o);
      SetValid(Trim(m, o.maxKeys - 1, 0, now, o), key, FRESH_RECORD);
      hide Trim, Valid;
    }
  }

  lemma {:induction false} TrimHeads(m: Map<Record>, max: nat, i: nat, now: real, o: Options)
    requires Heads(m) && i <= |m.order|
    ensures Heads(Trim(m, max, i, now, o))
    decreases |m.order| - i
  {
    if i < |m.order| && |m.order| > max {
      var key := m.order[i];
      PruneHeads(m, key, now, o);
      var r := Prune(m.at[key], now, o);
      if Idle(r, now) {
        TrimHeads(Delete(m, key), max, i, now, o);
      } else {
        TrimHeads(Set(m, key, r), max, i + 1, now, o);
      }
    }
  }

  ghost predicate SameWaiters(m: Map<Record>, m': Map<Record>) {
    forall k :: RecordAt(m', k).waiters == RecordAt(m, k).waiters
  }

  lemma LookupOk(m: Map<Record>, key: Key, logs: map<Key, seq<real>>, now: real, o: Options)
    requires Heads(m) && AllOk(m, logs, now, o) && o.Normalized()
    ensures AllOk(Lookup(m, key, now, o), logs, now, o) && SameWaiters(m, Lookup(m, key, now, o))
  {
    hide AllOk, SameWaiters, Heads, KeyOk, Trim;
    if key in m.at {
      SameWaitersSelf(m);
    } else {
      TrimOk(m, o.maxKeys - 1, 0, logs, now, o);
      FreshKey(m, Trim(m, o.maxKeys - 1, 0, now, o), key, logs, now, o);
    }
  }

  /** Finding or creating the record of a key, and pruning others on the way, changes no queue and no promise. */
  lemma LookupInv(s: Limiter, key: Key, clock: Clock, o: Options)
    requires Inv(s, clock, o) && o.Normalized() && NonDecreasing(clock)
    ensures Heads(s.records)
    ensures var m := Lookup(s.records, key, clock(s.tick), o);
            && Heads(m) && key in m.at
            && Inv(s.(records := m, tick := s.tick + 1), clock, o)
  {
    hide AllOk, QueuesOk, Lookup, Heads, Valid, NonDecreasing, SameWaiters;
    var now := clock(s.tick);
    LastReading(clock, s.tick);
    InvHeads(s.records, s.admissions, Last(clock, s.tick), o);
    LaterAll(s.records, s.admissions, Last(clock, s.tick), now, o);
    LookupHeads(s.records, key, now, o);
    LookupOk(s.records, key, s.admissions, now, o);
    SameQueues(s, s.(records := Lookup(s.records, key, now, o), tick := s.tick + 1), o);
  }

  lemma LastReading(clock: Clock, tick: nat)
    requires NonDecreasing(clock)
    ensures Last(clock, tick) <= clock(tick) && Last(clock, tick + 1) == clock(tick)
  {
  }

  lemma SameWaitersSelf(m: Map<Record>)
    ensures SameWaiters(m, m)
  {
  }

  lemma FreshKey(m: Map<Record>, t: Map<Record>, key: Key, logs: map<Key, seq<real>>, now: real, o: Options)
    requires AllOk(t, logs, now, o) && key !in m.at && (forall k | k in t.at :: k in m.at)
    requires SameWaiters(m, t)
    ensures AllOk(Set(t, key, FRESH_RECORD), logs, now, o) && SameWaiters(m, Set(t, key, FRESH_RECORD))
  {
  }

  lemma SameQueues(s: Limiter, s': Limiter, o: Options)
    requires QueuesOk(s, o) && s'.history == s.history && s'.installed == s.installed
    requires SameWaiters(s.records, s'.records)
    ensures QueuesOk(s', o)
  {
  }

  /** Everything but the record of `key` is in order, whose queue is. */
  ghost predicate OthersOk(s: Limiter, key: Key, clock: Clock, o: Options) {
    && Valid(s.records) && key in s.records.at && QueuesOk(s, o)
    && forall k | k != key :: KeyOk(RecordAt(s.records, k), At(s.admissions, k), Last(clock, s.tick), o)
  }

  /** Scheduling one record completes the invariant. */
  lemma ServedInv(s: Limiter, key: Key, f: Flow, clock: Clock, o: Options)
    requires OthersOk(s, key, clock, o) && NonDecreasing(clock)
    requires Flows(f, s.records.at[key], At(s.admissions, key), s.tick, clock, o)
    ensures Inv(Served(s, key, f), clock, o)
  {
    var r := Served(s, key, f);
    SetValid(s.records, key, f.record);
    assert FlowQueue(f, s.records.at[key]);
    ServedKeys(s, key, f, clock, o);
    ServedQueues(s, key, f, o);
    hide AllOk, QueuesOk, Valid, Flows, Served, FlowQueue;
  }

  ghost predicate FlowQueue(f: Flow, r: Record) {
    f.served + f.record.waiters == r.waiters
  }

  lemma ServedKeys(s: Limiter, key: Key, f: Flow, clock: Clock, o: Options)
    requires OthersOk(s, key, clock, o) && NonDecreasing(clock)
    requires Flows(f, s.records.at[key], At(s.admissions, key), s.tick, clock, o)
    ensures var r := Served(s, key, f); AllOk(r.records, r.admissions, Last(clock, r.tick), o)
  {
    var r := Served(s, key, f);
    assert KeyOk(f.record, At(s.admissions, key) + f.times, Last(clock, f.tick), o);
    assert Last(clock, s.tick) <= Last(clock, f.tick);
    forall k ensures KeyOk(RecordAt(r.records, k), At(r.admissions, k), Last(clock, f.tick), o) {
      if k != key {
        LaterOk(RecordAt(s.records, k), At(s.admissions, k), Last(clock, s.tick), Last(clock, f.tick), o);
      }
    }
    hide RecordOk, TimerOk, QueuesOk, Valid, NonDecreasing, Last;
  }

  lemma ServedQueues(s: Limiter, key: Key, f: Flow, o: Options)
    requires QueuesOk(s, o) && key in s.records.at && FlowQueue(f, s.records.at[key])
    ensures QueuesOk(Served(s, key, f), o)
  {
    var r := Served(s, key, f);
    var w := s.records.at[key].waiters;
    assert f.record.waiters == w[|f.served|..] && f.served <= w;
    forall k ensures QueueOk(RecordAt(r.records, k).waiters, r.installed, r.history, k, o) {
      assert QueueOk(RecordAt(s.records, k).waiters, s.installed, s.history, k, o);
      GrantFifo(RecordAt(s.records, k).waiters, s.history, f.served, key, k);
      TailIn(RecordAt(s.records, k).waiters, |f.served|);
    }
    hide FifoOk, Grant;
  }

  lemma TailIn<T>(s: seq<T>, n: nat)
    ensures n <= |s| ==> forall x | x in s[n..] :: x in s
  {
  }

  ghost predicate IsNew(s: Limiter, t: Ticket) {
    t !in s.history.arrival && t.installation in s.installed
  }

  lemma OthersFrom(s: Limiter, s': Limiter, key: Key, r: Record, clock: Clock, o: Options)
    requires Inv(s, clock, o) && key in s.records.at && QueuesOk(s', o)
    requires s' == s.(records := Set(s.records, key, r), history := s'.history)
    ensures OthersOk(s', key, clock, o)
  {
  }

  lemma JoinedQueues(s: Limiter, t: Ticket, key: Key, o: Options)
    requires QueuesOk(s, o) && key in s.records.at && IsNew(s, t)
    requires |s.records.at[key].waiters| < o.maxQueue
    ensures var r := s.records.at[key];
            QueuesOk(s.(records := Set(s.records, key, r.(waiters := r.waiters + [t])), history := Arrive(s.history, t, key)), o)
  {
    var r := s.records.at[key];
    var s' := s.(records := Set(s.records, key, r.(waiters := r.waiters + [t])), history := Arrive(s.history, t, key));
    forall k ensures QueueOk(RecordAt(s'.records, k).waiters, s'.installed, s'.history, k, o) {
      assert QueueOk(RecordAt(s.records, k).waiters, s.installed, s.history, k, o);
      ArriveFifo(RecordAt(s.records, k).waiters, s.history, t, key, k);
    }
    hide FifoOk;
  }

  /** A request that is admitted at once enters the log of its key. */
  lemma AdmitNow(r: Record, h: seq<real>, now: real, tick: nat, clock: Clock, o: Options)
    requires KeyOk(r, h, now, o) && r.waiters == [] && ActiveCount(r) < o.maxRequests && now == Last(clock, tick)
    ensures Flows(Flow(r.(timestamps := r.timestamps + [now]), tick, [], [now]), r, h, tick, clock, o)
  {
  }

  /** Joining a queue keeps an armed timer in time, and arms one if none was. */
  lemma JoinFlow(r: Record, t: Ticket, h: seq<real>, tick: nat, clock: Clock, o: Options)
    requires KeyOk(r, h, Last(clock, tick), o) && NonDecreasing(clock) && o.Normalized()
    ensures var q := r.(waiters := r.waiters + [t]);
            FlowOk(Schedule(q, tick + 1, clock, o), q, h, tick, clock, o)
  {
    hide RecordOk, TimerOk, FlowOk, NonDecreasing, Schedule, Last;
    var q := r.(waiters := r.waiters + [t]);
    LastReading(clock, tick);
    LaterOk(r, h, Last(clock, tick), clock(tick), o);
    JoinOk(r, t, h, clock(tick), o);
    ScheduleOk(q, h, tick + 1, clock, o);
    FlowFrom(Schedule(q, tick + 1, clock, o), q, q, h, tick + 1, tick, clock, o);
  }

  lemma JoinOk(r: Record, t: Ticket, h: seq<real>, now: real, o: Options)
    requires KeyOk(r, h, now, o)
    ensures var q := r.(waiters := r.waiters + [t]);
            q.head <= |q.timestamps| && RecordOk(q, h, now, o) && (q.timer.Some? ==> TimerOk(q, now, o))
  {
  }

  lemma AdmitInv(s: Limiter, key: Key, now: real, clock: Clock, o: Options)
    requires Inv(s, clock, o) && NonDecreasing(clock) && key in s.records.at && now == Last(clock, s.tick)
    requires s.records.at[key].waiters == [] && ActiveCount(s.records.at[key]) < o.maxRequests
    ensures var r := s.records.at[key];
            Inv(Served(s, key, Flow(r.(timestamps := r.timestamps + [now]), s.tick, [], [now])), clock, o)
  {
    hide *;
    var r := s.records.at[key];
    KeyOf(s, key, clock, o);
    AdmitNow(r, At(s.admissions, key), now, s.tick, clock, o);
    ServedInv(s, key, Flow(r.(timestamps := r.timestamps + [now]), s.tick, [], [now]), clock, o);
  }

  lemma JoinInv(s: Limiter, t: Ticket, key: Key, clock: Clock, o: Options)
    requires Inv(s, clock, o) && o.Normalized() && NonDecreasing(clock) && IsNew(s, t)
    requires key in s.records.at && |s.records.at[key].waiters| < o.maxQueue && Heads(s.records)
    ensures var q := s.records.at[key].(waiters := s.records.at[key].waiters + [t]);
            var joined := s.(records := Set(s.records, key, q), history := Arrive(s.history, t, key));
            q.head <= |q.timestamps| && Inv(Served(joined, key, Schedule(q, s.tick + 1, clock, o)), clock, o)
  {
    hide Inv, KeyOk, Flows, OthersOk, QueuesOk, NonDecreasing, Served, Schedule, Arrive, IsNew, Valid;
    var r := s.records.at[key];
    var q := r.(waiters := r.waiters + [t]);
    var joined := s.(records := Set(s.records, key, q), history := Arrive(s.history, t, key));
    KeyOf(s, key, clock, o);
    JoinedQueues(s, t, key, o);
    OthersFrom(s, joined, key, q, clock, o);
    JoinFlow(r, t, At(s.admissions, key), s.tick, clock, o);
    ServedInv(joined, key, Schedule(q, s.tick + 1, clock, o), clock, o);
  }

  lemma AnsweringInv(s: Limiter, t: Ticket, key: Key, refused: bool, now: real, clock: Clock, o: Options)
    requires Inv(s, clock, o) && o.Normalized() && NonDecreasing(clock) && IsNew(s, t)
    requires Heads(s.records) && key in s.records.at && now == Last(clock, s.tick)
    ensures Inv(Answering(s, t, key, refused, now, clock, o).0, clock, o)
  {
    hide Inv, NonDecreasing, Served, Schedule, IsNew, Valid, Arrive, Last;
    var r := s.records.at[key];
    if r.waiters == [] && Rested(r, now) && ActiveCount(r) < o.maxRequests {
      AdmitInv(s, key, now, clock, o);
    } else if !refused && |r.waiters| < o.maxQueue {
      JoinInv(s, t, key, clock, o);
    }
  }

  lemma KeyOf(s: Limiter, key: Key, clock: Clock, o: Options)
    requires Inv(s, clock, o) && key in s.records.at
    ensures KeyOk(s.records.at[key], At(s.admissions, key), Last(clock, s.tick), o)
    ensures QueuesOk(s, o) && OthersOk(s, key, clock, o) && s.records.at[key].head <= |s.records.at[key].timestamps|
  {
  }

  lemma PrunedInv(s: Limiter, key: Key, r: Record, clock: Clock, o: Options)
    requires Inv(s, clock, o) && key in s.records.at && r.waiters == s.records.at[key].waiters
    requires KeyOk(r, At(s.admissions, key), Last(clock, s.tick), o)
    ensures Inv(s.(records := Set(s.records, key, r)), clock, o) && Heads(Set(s.records, key, r))
  {
    var m := Set(s.records, key, r);
    hide KeyOk, Valid, QueuesOk, Heads, NonDecreasing, Last, SameWaiters;
    SetValid(s.records, key, r);
    SetSameWaiters(s.records, key, r);
    OneKey(s.records, s.admissions, m, s.admissions, key, Last(clock, s.tick), Last(clock, s.tick), o);
    SameQueues(s, s.(records := m), o);
    InvHeads(m, s.admissions, Last(clock, s.tick), o);
  }

  lemma SetSameWaiters(m: Map<Record>, key: Key, r: Record)
    requires key in m.at && r.waiters == m.at[key].waiters
    ensures SameWaiters(m, Set(m, key, r))
  {
  }

  lemma RequestInv(s: Limiter, t: Ticket, key: Key, refused: bool, clock: Clock, o: Options)
    requires Inv(s, clock, o) && o.Normalized() && NonDecreasing(clock) && IsNew(s, t)
    ensures Heads(s.records) && Inv(Request(s, t, key, refused, clock, o).0, clock, o)
  {
    hide Inv, KeyOk, Heads, NonDecreasing, Lookup, Answering, Last, Prune;
    var now := clock(s.tick);
    LookupInv(s, key, clock, o);
    LastReading(clock, s.tick);
    var found := s.(records := Lookup(s.records, key, now, o), tick := s.tick + 1);
    KeyOf(found, key, clock, o);
    var r := found.records.at[key];
    PruneKey(r, At(s.admissions, key), now, o);
    PrunedInv(found, key, Prune(r, now, o), clock, o);
    AnsweringInv(found.(records := Set(found.records, key, Prune(r, now, o))), t, key, refused, now, clock, o);
  }

  lemma RetryAfterInv(s: Limiter, key: Key, delay: real, clock: Clock, o: Options)
    requires Inv(s, clock, o) && o.Normalized() && NonDecreasing(clock)
    ensures Heads(s.records) && Inv(RetryAfter(s, key, delay, clock, o), clock, o)
  {
    hide Inv, Heads, NonDecreasing, Lookup, Cooldown, Last, Min;
    LookupInv(s, key, clock, o);
    CooldownInv(s.(records := Lookup(s.records, key, clock(s.tick), o), tick := s.tick + 1), key,
                clock(s.tick) + Min(delay, o.maxRetryAfter), clock, o);
  }

  lemma CooldownInv(s: Limiter, key: Key, until: real, clock: Clock, o: Options)
    requires Inv(s, clock, o) && o.Normalized() && NonDecreasing(clock) && key in s.records.at && Heads(s.records)
    ensures Inv(Cooldown(s, key, until, clock, o), clock, o)
  {
    hide Inv, RecordOk, TimerOk, FlowOk, OthersOk, QueuesOk, NonDecreasing, Served, Schedule, Heads, Last;
    KeyOf(s, key, clock, o);
    var r := s.records.at[key].(cooldownUntil := Some(until), timer := None);
    UntimedOk(s.records.at[key], At(s.admissions, key), Some(until), Last(clock, s.tick), o);
    if !((if s.records.at[key].cooldownUntil.Some? then s.records.at[key].cooldownUntil.value else 0.0) >= until) {
      ScheduleOk(r, At(s.admissions, key), s.tick, clock, o);
      RestartInv(s, key, r, Schedule(r, s.tick, clock, o), clock, o);
    }
  }

  lemma UntimedOk(r: Record, h: seq<real>, cooldownUntil: Option<real>, now: real, o: Options)
    requires KeyOk(r, h, now, o)
    ensures RecordOk(r.(cooldownUntil := cooldownUntil, timer := None), h, now, o)
  {
  }

  /** A step that ends in a flow from the same queue keeps the invariant. */
  lemma RestartInv(s: Limiter, key: Key, r: Record, f: Flow, clock: Clock, o: Options)
    requires Inv(s, clock, o) && NonDecreasing(clock) && key in s.records.at
    requires r.waiters == s.records.at[key].waiters
    requires FlowOk(f, r, At(s.admissions, key), s.tick, clock, o)
    ensures Inv(Served(s, key, f), clock, o)
  {
    hide Inv, RecordOk, TimerOk, OthersOk, QueuesOk, NonDecreasing, Served, Last;
    KeyOf(s, key, clock, o);
    FlowFrom(f, r, s.records.at[key], At(s.admissions, key), s.tick, s.tick, clock, o);
    ServedInv(s, key, f, clock, o);
  }

  lemma TimerInv(s: Limiter, key: Key, clock: Clock, o: Options)
    requires Inv(s, clock, o) && o.Normalized() && NonDecreasing(clock) && key in s.records.at
    ensures Heads(s.records) && Inv(TimerFires(s, key, clock, o), clock, o)
  {
    hide AllOk, RecordOk, TimerOk, FlowOk, OthersOk, QueuesOk, NonDecreasing, Served, Drain, Heads, Last, Valid;
    var now := clock(s.tick);
    InvHeads(s.records, s.admissions, Last(clock, s.tick), o);
    KeyOf(s, key, clock, o);
    LastReading(clock, s.tick);
    var r := s.records.at[key];
    LaterOk(r, At(s.admissions, key), Last(clock, s.tick), now, o);
    UntimedOk(r, At(s.admissions, key), r.cooldownUntil, now, o);
    DrainOk(r.(timer := None), At(s.admissions, key), now, s.tick + 1, clock, o);
    var f := Drain(r.(timer := None), now, s.tick + 1, clock, o);
    FlowFrom(f, r.(timer := None), r, At(s.admissions, key), s.tick + 1, s.tick, clock, o);
    RestartInv(s, key, r, f, clock, o);
  }

  lemma InspectInv(s: Limiter, key: Key, clock: Clock, o: Options)
    requires Inv(s, clock, o) && NonDecreasing(clock)
    ensures Heads(s.records) && Inv(Inspect(s, key, clock, o), clock, o)
  {
    hide AllOk, OthersOk, QueuesOk, NonDecreasing, Heads, Last, Valid, KeyOk, Prune, Pruned, Idle;
    InvHeads(s.records, s.admissions, Last(clock, s.tick), o);
    if key in s.records.at {
      var now := clock(s.tick);
      LastReading(clock, s.tick);
      LaterAll(s.records, s.admissions, Last(clock, s.tick), now, o);
      TickInv(s, clock, o);
      KeyOf(s.(tick := s.tick + 1), key, clock, o);
      var r := Prune(s.records.at[key], now, o);
      PruneKey(s.records.at[key], At(s.admissions, key), now, o);
      RestedOk(r, At(s.admissions, key), now, o);
      PrunedInv(s.(tick := s.tick + 1), key, if Rested(r, now) then r.(cooldownUntil := None) else r, clock, o);
    }
  }

  lemma TickInv(s: Limiter, clock: Clock, o: Options)
    requires Inv(s, clock, o) && NonDecreasing(clock)
    ensures Inv(s.(tick := s.tick + 1), clock, o)
  {
    hide AllOk, RecordAt, At, FifoOk, Valid;
    LastReading(clock, s.tick);
    LaterAll(s.records, s.admissions, Last(clock, s.tick), clock(s.tick), o);
  }

  /** Forgetting a cooldown that is over makes no timer late. */
  lemma RestedOk(r: Record, h: seq<real>, now: real, o: Options)
    requires KeyOk(r, h, now, o)
    ensures Rested(r, now) ==> KeyOk(r.(cooldownUntil := None), h, now, o)
  {
  }

  // ---------- Leaving ----------

  ghost predicate AllWaiting(s: Limiter, gone: set<Ticket>) {
    forall t | t in gone :: t in s.history.arrival && t in RecordAt(s.records, s.history.arrival[t]).waiters
  }

  lemma LeftOk(r: Record, gone: set<Ticket>, h: seq<real>, now: real, o: Options)
    requires KeyOk(r, h, now, o)
    ensures KeyOk(Left(r, gone), h, now, o)
  {
  }

  lemma CancelInv(s: Limiter, gone: set<Ticket>, clock: Clock, o: Options)
    requires Inv(s, clock, o) && AllWaiting(s, gone)
    ensures Inv(Cancel(s, gone), clock, o)
  {
    var c := Cancel(s, gone);
    var last := Last(clock, s.tick);
    forall k ensures RecordAt(c.records, k) == Left(RecordAt(s.records, k), gone) {
    }
    CancelQueues(s, gone, o);
    forall k ensures KeyOk(RecordAt(c.records, k), At(c.admissions, k), last, o) {
      assert KeyOk(RecordAt(s.records, k), At(s.admissions, k), last, o);
      LeftOk(RecordAt(s.records, k), gone, At(s.admissions, k), last, o);
    }
    hide KeyOk, QueuesOk, RecordAt, Left;
  }

  lemma CancelQueues(s: Limiter, gone: set<Ticket>, o: Options)
    requires QueuesOk(s, o) && AllWaiting(s, gone)
    ensures QueuesOk(Cancel(s, gone), o)
  {
    var c := Cancel(s, gone);
    forall k ensures QueueOk(RecordAt(c.records, k).waiters, c.installed, c.history, k, o) {
      var w := RecordAt(s.records, k).waiters;
      assert QueueOk(w, s.installed, s.history, k, o);
      assert RecordAt(c.records, k).waiters == Without(w, gone);
      CancelFifo(w, s.history, gone, k);
      WithoutShorter(w, gone);
      WithoutMembers(w, gone);
    }
    hide FifoOk, Without;
  }

  lemma OwnWaitersWait(s: Limiter, installation: nat, o: Options)
    requires QueuesOk(s, o)
    ensures AllWaiting(s, OwnWaiters(s, installation))
  {
    forall t | t in OwnWaiters(s, installation)
      ensures t in s.history.arrival && t in RecordAt(s.records, s.history.arrival[t]).waiters
    {
      var k :| k in s.records.at && t in s.records.at[k].waiters;
      assert QueueOk(RecordAt(s.records, k).waiters, s.installed, s.history, k, o);
      WaiterArrived(s.records.at[k].waiters, s.history, k);
    }
  }

  /** Removing an installation leaves the other ones' waiters and timers as they are. */
  lemma RemoveInv(s: Limiter, installation: nat, clock: Clock, o: Options)
    requires Inv(s, clock, o)
    ensures Inv(Remove(s, installation), clock, o)
  {
    hide AllOk, Valid, QueuesOk, AllWaiting, Cancel, OwnWaiters;
    OwnWaitersWait(s, installation, o);
    CancelInv(s, OwnWaiters(s, installation), clock, o);
    var c := Cancel(s, OwnWaiters(s, installation));
    CancelGains(s, installation);
    LeaveInv(c, installation, o);
    FreshAll(clock, s.tick, o);
    SameTick(s, OwnWaiters(s, installation));
  }

  lemma SameTick(s: Limiter, gone: set<Ticket>)
    ensures Cancel(s, gone).tick == s.tick
  {
  }

  ghost predicate NobodyWaits(s: Limiter, installation: nat) {
    forall k, t | t in RecordAt(s.records, k).waiters :: t.installation != installation
  }

  lemma CancelGains(s: Limiter, installation: nat)
    ensures NobodyWaits(Cancel(s, OwnWaiters(s, installation)), installation)
  {
    var gone := OwnWaiters(s, installation);
    forall k, t | k in s.records.at && t in Without(s.records.at[k].waiters, gone)
      ensures t.installation != installation
    {
      WithoutMembers(s.records.at[k].waiters, gone);
      assert t.installation == installation ==> t in gone;
    }
  }

  lemma LeaveInv(r: Limiter, installation: nat, o: Options)
    requires QueuesOk(r, o) && NobodyWaits(r, installation)
    ensures var left := r.(installed := r.installed - {installation});
            QueuesOk(if left.installed == {} then left.(records := Map([], map[]), admissions := map[]) else left, o)
  {
    var left := r.(installed := r.installed - {installation});
    var out := if left.installed == {} then left.(records := Map([], map[]), admissions := map[]) else left;
    forall k ensures QueueOk(RecordAt(out.records, k).waiters, out.installed, out.history, k, o) {
      var w := RecordAt(r.records, k).waiters;
      assert QueueOk(w, r.installed, r.history, k, o);
      assert forall t | t in w :: t.installation in left.installed;
      NoneLeft(w, left.installed);
    }
    hide FifoOk;
  }

  lemma NoneLeft(waiters: seq<Ticket>, installed: set<nat>)
    requires forall t | t in waiters :: t.installation in installed
    ensures installed == {} ==> waiters == []
  {
    assert waiters != [] ==> waiters[0].installation in installed;
  }

  lemma FreshAll(clock: Clock, tick: nat, o: Options)
    ensures AllOk(Map([], map[]), map[], Last(clock, tick), o) && Valid<Record>(Map([], map[]))
  {
  }

  // ---------- Events and runs ----------

  datatype Event =
    | Install(installation: nat)
    | Ask(ticket: Ticket, key: Key, refused: bool)
    | Leave(gone: set<Ticket>)
    | Fire(key: Key)
    | TooMany(key: Key, delay: real)
    | Look(key: Key)
    | Uninstall(installation: nat)

  ghost predicate Enabled(s: Limiter, e: Event) {
    match e
    case Install(i) => i !in s.installed
    case Ask(t, _, _) => IsNew(s, t)
    case Leave(gone) => AllWaiting(s, gone)
    case Fire(key) => key in s.records.at && s.records.at[key].timer.Some?
    case TooMany(_, _) => s.installed != {}
    case Look(_) => true
    case Uninstall(i) => i in s.installed
  }

  function Step(s: Limiter, e: Event, clock: Clock, o: Options): (r: Limiter)
    requires Inv(s, clock, o) && o.Normalized() && NonDecreasing(clock) && Enabled(s, e)
    ensures Inv(r, clock, o)
  {
    match e
    case Install(i) => InstallInv(s, i, clock, o); s.(installed := s.installed + {i})
    case Ask(t, key, refused) =>
      RequestInv(s, t, key, refused, clock, o); Request(s, t, key, refused, clock, o).0
    case Leave(gone) => CancelInv(s, gone, clock, o); Cancel(s, gone)
    case Fire(key) => TimerInv(s, key, clock, o); TimerFires(s, key, clock, o)
    case TooMany(key, delay) => RetryAfterInv(s, key, delay, clock, o); RetryAfter(s, key, delay, clock, o)
    case Look(key) => InspectInv(s, key, clock, o); Inspect(s, key, clock, o)
    case Uninstall(i) => RemoveInv(s, i, clock, o); Remove(s, i)
  }

  lemma InstallInv(s: Limiter, i: nat, clock: Clock, o: Options)
    requires Inv(s, clock, o)
    ensures Inv(s.(installed := s.installed + {i}), clock, o)
  {
  }

  ghost predicate Allowed(s: Limiter, events: seq<Event>, clock: Clock, o: Options)
    requires Inv(s, clock, o) && o.Normalized() && NonDecreasing(clock)
    decreases |events|
  {
    events == [] || (Enabled(s, events[0]) && Allowed(Step(s, events[0], clock, o), events[1..], clock, o))
  }

  function Run(s: Limiter, events: seq<Event>, clock: Clock, o: Options): (r: Limiter)
    requires Inv(s, clock, o) && o.Normalized() && NonDecreasing(clock) && Allowed(s, events, clock, o)
    ensures Inv(r, clock, o)
    decreases |events|
  {
    if events == [] then s else Run(Step(s, events[0], clock, o), events[1..], clock, o)
  }

  // ---------- What every run guarantees ----------

  lemma EmptyInv(clock: Clock, o: Options)
    ensures Inv(EMPTY, clock, o)
  {
  }

  /** Since the plugin was last without installations, no interval (t - interval, t] holds more than `maxRequests`
      admissions of one key, whatever was pruned, compacted, evicted or re-created meanwhile. */
  lemma RollingWindowHolds(events: seq<Event>, clock: Clock, o: Options, key: Key, t: real)
    requires o.Normalized() && NonDecreasing(clock) && Inv(EMPTY, clock, o) && Allowed(EMPTY, events, clock, o)
    ensures |InWindow(At(Run(EMPTY, events, clock, o).admissions, key), t, o)| <= o.maxRequests
  {
    var s := Run(EMPTY, events, clock, o);
    assert KeyOk(RecordAt(s.records, key), At(s.admissions, key), Last(clock, s.tick), o);
    AtMostPerWindow(At(s.admissions, key), t, o);
    hide InWindow, Run, Allowed;
  }

  /** No stall: between steps every record with waiters has a timer armed in time, and a record without has none. */
  lemma NoStall(events: seq<Event>, clock: Clock, o: Options, key: Key)
    requires o.Normalized() && NonDecreasing(clock) && Inv(EMPTY, clock, o) && Allowed(EMPTY, events, clock, o)
    ensures var s := Run(EMPTY, events, clock, o);
            var r := RecordAt(s.records, key);
            && r.head <= |r.timestamps|
            && (r.waiters != [] <==> r.timer.Some?)
            && (r.timer.Some? ==> r.timer.value <= Due(Live(r), r.cooldownUntil, Last(clock, s.tick), o))
  {
    var s := Run(EMPTY, events, clock, o);
    assert KeyOk(RecordAt(s.records, key), At(s.admissions, key), Last(clock, s.tick), o);
    hide Run, Allowed, WindowOk;
  }

  /** A timer that fires no earlier than the head of its queue is due admits it. */
  lemma DueTimerServes(s: Limiter, key: Key, clock: Clock, o: Options)
    requires Inv(s, clock, o) && o.Normalized() && NonDecreasing(clock) && Enabled(s, Fire(key))
    requires var r := s.records.at[key];
             r.head <= |r.timestamps| && Due(Live(r), r.cooldownUntil, Last(clock, s.tick), o) <= clock(s.tick)
    ensures var r := s.records.at[key];
            r.waiters != [] && At(s.history.granted, key) + [r.waiters[0]]
                               <= At(Step(s, Fire(key), clock, o).history.granted, key)
  {
    hide AllOk, QueuesOk, Valid, Drain, Due, WindowOk, Last, NonDecreasing;
    var r := s.records.at[key];
    KeyOf(s, key, clock, o);
    LastReading(clock, s.tick);
    UntimedOk(r, At(s.admissions, key), r.cooldownUntil, Last(clock, s.tick), o);
    DueServes(r.(timer := None), At(s.admissions, key), Last(clock, s.tick), clock(s.tick), s.tick + 1, clock, o);
  }

  /** Waiters are admitted in arrival order, skipping exactly those that gave up. */
  lemma GrantsAreFifo(events: seq<Event>, clock: Clock, o: Options, key: Key)
    requires o.Normalized() && NonDecreasing(clock) && Inv(EMPTY, clock, o) && Allowed(EMPTY, events, clock, o)
    ensures var s := Run(EMPTY, events, clock, o);
            At(s.history.granted, key) + RecordAt(s.records, key).waiters
            == Without(At(s.history.arrived, key), s.history.cancelled)
  {
    var s := Run(EMPTY, events, clock, o);
    assert QueueOk(RecordAt(s.records, key).waiters, s.installed, s.history, key, o);
    hide Run, Allowed, AllOk, Valid;
  }

  /** A request is admitted at once exactly when nobody waits, no cooldown is on, and the window that ends now has
      room for it. */
  lemma AdmittedExactly(s: Limiter, t: Ticket, key: Key, refused: bool, clock: Clock, o: Options)
    requires Inv(s, clock, o) && o.Normalized() && NonDecreasing(clock) && IsNew(s, t) && Heads(s.records)
    ensures var now := clock(s.tick);
            var r := RecordAt(s.records, key);
            (Request(s, t, key, refused, clock, o).1 == Admitted
             <==> r.waiters == [] && Rested(r, now) && |InWindow(At(s.admissions, key), now, o)| < o.maxRequests)
  {
    hide KeyOk, Heads, NonDecreasing, Last, InWindow, Pruned, Idle, AllOk, Valid, QueuesOk, Prune, Request;
    var now := clock(s.tick);
    LastReading(clock, s.tick);
    LaterAll(s.records, s.admissions, Last(clock, s.tick), now, o);
    KeyAt(s.records, s.admissions, key, now, o);
    var r := RecordAt(s.records, key);
    PruneKey(r, At(s.admissions, key), now, o);
    KeyLive(Prune(r, now, o), At(s.admissions, key), now, o);
    PruneLive(r, now, o);
    RequestAnswer(s, t, key, refused, clock, o);
  }

  lemma RequestAnswer(s: Limiter, t: Ticket, key: Key, refused: bool, clock: Clock, o: Options)
    requires o.Normalized() && Heads(s.records)
    ensures var now := clock(s.tick);
            var r := RecordAt(s.records, key);
            r.head <= |r.timestamps| && var p := Prune(r, now, o);
            (Request(s, t, key, refused, clock, o).1 == Admitted
             <==> p.waiters == [] && Rested(p, now) && ActiveCount(p) < o.maxRequests)
  {
  }

  lemma KeyLive(r: Record, h: seq<real>, now: real, o: Options)
    requires KeyOk(r, h, now, o) && Pruned(r, now, o)
    ensures ActiveCount(r) == |InWindow(h, now, o)| <= o.maxRequests
  {
    hide TimerOk, WindowOk, InWindow, Pruned;
    LiveIsWindow(r, h, now, o);
  }

  /** The remaining count reported for a key is what the window that ends now leaves, or none during a cooldown. */
  lemma RemainingExact(s: Limiter, key: Key, clock: Clock, o: Options)
    requires Inv(s, clock, o) && NonDecreasing(clock) && Heads(s.records)
    ensures var now := clock(s.tick);
            Remaining(s, key, clock, o)
            == if Cooling(RecordAt(s.records, key), now) then 0
               else o.maxRequests - |InWindow(At(s.admissions, key), now, o)|
  {
    hide KeyOk, Heads, NonDecreasing, Last, InWindow, Pruned, Idle, AllOk, Valid, QueuesOk, Prune;
    var now := clock(s.tick);
    LastReading(clock, s.tick);
    LaterAll(s.records, s.admissions, Last(clock, s.tick), now, o);
    KeyAt(s.records, s.admissions, key, now, o);
    var r := RecordAt(s.records, key);
    PruneKey(r, At(s.admissions, key), now, o);
    KeyLive(Prune(r, now, o), At(s.admissions, key), now, o);
    PruneLive(r, now, o);
    if key !in s.records.at {
      FreshEmpty(At(s.admissions, key), now, o);
    }
  }

  lemma KeyAt(m: Map<Record>, logs: map<Key, seq<real>>, key: Key, now: real, o: Options)
    requires AllOk(m, logs, now, o)
    ensures KeyOk(RecordAt(m, key), At(logs, key), now, o) && RecordAt(m, key).head <= |RecordAt(m, key).timestamps|
  {
  }

  lemma FreshEmpty(h: seq<real>, now: real, o: Options)
    requires KeyOk(FRESH_RECORD, h, now, o)
    ensures |InWindow(h, now, o)| == 0
  {
  }
}
