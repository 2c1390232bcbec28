/** What the rate limiter answers, what each answer changes, and when it wakes up again. */
module RateLimitAnswers {
  import opened Collections
  import opened InsertionMap
  import opened Fifo
  import opened RollingWindow
  import opened RateLimit

  /** A request can be admitted at once: nobody waits, no cooldown is on, and the interval that ends now has room. */
  ghost predicate HasRoom(s: Limiter, key: Key, now: real, o: Options) {
    var r := RecordAt(s.records, key);
    r.waiters == [] && Rested(r, now) && |InWindow(At(s.admissions, key), now, o)| < o.maxRequests
  }

  /** A request waits if and only if it cannot be admitted at once, is not refused, and the queue has room; it is then
      the last of the arrivals, and of those served or waiting. An admitted one is logged at its instant and changes
      no queue. A rejected one changes no log, no queue and no arrivals. */
  lemma QueuedExactly(s: Limiter, t: Ticket, key: Key, refused: bool, clock: Clock, o: Options)
    requires Inv(s, clock, o) && o.Normalized() && NonDecreasing(clock) && IsNew(s, t) && Heads(s.records)
    ensures var now := clock(s.tick);
            var (n, answer) := Request(s, t, key, refused, clock, o);
            && (answer == Queued <==>
                  !HasRoom(s, key, now, o) && !refused && |RecordAt(s.records, key).waiters| < o.maxQueue)
            && (forall k | k != key :: SameKey(s, n, k))
            && Changed(s, n, answer, t, key, now)
  {
    hide Inv, Heads, NonDecreasing, InWindow, Answering, Lookup, Prune, IsNew;
    var now := clock(s.tick);
    AdmittedExactly(s, t, key, refused, clock, o);
    LookupInv(s, key, clock, o);
    LookupWaiters(s, key, clock, o);
    var l := Lookup(s.records, key, now, o);
    FoundInv(s, key, clock, o);
    PruneWaits(l, key, now, o);
    var found := s.(records := Set(l, key, Prune(l.at[key], now, o)), tick := s.tick + 1);
    FoundSame(s, l, found, key);
    AnsweringExactly(found, t, key, refused, now, clock, o);
    var (n, answer) := Answering(found, t, key, refused, now, clock, o);
    SameFrom(s, found, n, answer, t, key, now);
  }

  lemma SameFrom(s: Limiter, found: Limiter, n: Limiter, answer: Answer, t: Ticket, key: Key, now: real)
    requires (forall k :: SameKey(s, found, k)) && found.history == s.history && Changed(found, n, answer, t, key, now)
    requires forall k | k != key :: SameKey(found, n, k)
    ensures Changed(s, n, answer, t, key, now) && forall k | k != key :: SameKey(s, n, k)
    ensures RecordAt(found.records, key).waiters == RecordAt(s.records, key).waiters
  {
    assert SameKey(s, found, key);
    forall k | k != key ensures SameKey(s, n, k) {
      assert SameKey(s, found, k) && SameKey(found, n, k);
    }
  }

  /** The record of the key found, or created, and pruned. */
  lemma FoundInv(s: Limiter, key: Key, clock: Clock, o: Options)
    requires Inv(s, clock, o) && o.Normalized() && NonDecreasing(clock) && Heads(s.records)
    ensures var now := clock(s.tick);
            var l := Lookup(s.records, key, now, o);
            && Heads(l) && key in l.at && l.at[key].head <= |l.at[key].timestamps|
            && var m := Set(l, key, Prune(l.at[key], now, o));
               Heads(m) && Inv(s.(records := m, tick := s.tick + 1), clock, o)
  {
    hide Inv, KeyOk, Heads, NonDecreasing, Lookup, Last, Prune;
    var now := clock(s.tick);
    LookupInv(s, key, clock, o);
    LastReading(clock, s.tick);
    var found := s.(records := Lookup(s.records, key, now, o), tick := s.tick + 1);
    KeyOf(found, key, clock, o);
    PruneKey(found.records.at[key], At(s.admissions, key), now, o);
    PrunedInv(found, key, Prune(found.records.at[key], now, o), clock, o);
  }

  lemma AnsweringExactly(s: Limiter, t: Ticket, key: Key, refused: bool, now: real, clock: Clock, o: Options)
    requires Inv(s, clock, o) && Heads(s.records) && o.Normalized() && NonDecreasing(clock) && key in s.records.at
    ensures var (n, answer) := Answering(s, t, key, refused, now, clock, o);
            && (answer == Queued <==> answer != Admitted && !refused && |RecordAt(s.records, key).waiters| < o.maxQueue)
            && (forall k | k != key :: SameKey(s, n, k))
            && Changed(s, n, answer, t, key, now)
  {
    hide Inv, Heads, NonDecreasing, Served, Schedule, Changed, SameKey, Last;
    var r := s.records.at[key];
    SameAll(s);
    if r.waiters == [] && Rested(r, now) && ActiveCount(r) < o.maxRequests {
      AdmittedChanges(s, t, key, now);
    } else if !refused && |r.waiters| < o.maxQueue {
      QueuedChanges(s, t, key, now, clock, o);
    } else {
      NothingChanges(s, t, key, now);
    }
  }

  lemma SameAll(s: Limiter)
    ensures forall k :: SameKey(s, s, k)
  {
  }

  ghost predicate Changed(s: Limiter, n: Limiter, answer: Answer, t: Ticket, key: Key, now: real) {
    match answer
    case Admitted =>
      && At(n.admissions, key) == At(s.admissions, key) + [now] && n.history.arrived == s.history.arrived
      && ServedOrWaiting(n, key) == ServedOrWaiting(s, key)
    case Rejected => SameKey(s, n, key)
    case Queued =>
      && At(n.history.arrived, key) == At(s.history.arrived, key) + [t]
      && ServedOrWaiting(n, key) == ServedOrWaiting(s, key) + [t]
      && |At(n.admissions, key)| - |At(s.admissions, key)| == |At(n.history.granted, key)| - |At(s.history.granted, key)|
  }

  lemma NothingChanges(s: Limiter, t: Ticket, key: Key, now: real)
    ensures Changed(s, s, Rejected, t, key, now)
  {
  }

  lemma AdmittedChanges(s: Limiter, t: Ticket, key: Key, now: real)
    requires key in s.records.at
    ensures var r := s.records.at[key];
            var n := Served(s, key, Flow(r.(timestamps := r.timestamps + [now]), s.tick, [], [now]));
            Changed(s, n, Admitted, t, key, now) && forall k | k != key :: SameKey(s, n, k)
  {
  }

  lemma QueuedChanges(s: Limiter, t: Ticket, key: Key, now: real, clock: Clock, o: Options)
    requires Inv(s, clock, o) && o.Normalized() && NonDecreasing(clock) && key in s.records.at
    ensures var r := s.records.at[key];
            var q := r.(waiters := r.waiters + [t]);
            var joined := s.(records := Set(s.records, key, q), history := Arrive(s.history, t, key));
            && q.head <= |q.timestamps|
            && var n := Served(joined, key, Schedule(q, s.tick + 1, clock, o));
               Changed(s, n, Queued, t, key, now) && forall k | k != key :: SameKey(s, n, k)
  {
    hide Inv, KeyOk, NonDecreasing, RecordOk, TimerOk, Schedule, Last;
    KeyOf(s, key, clock, o);
    var r := s.records.at[key];
    JoinFlow(r, t, At(s.admissions, key), s.tick, clock, o);
    var q := r.(waiters := r.waiters + [t]);
    var f := Schedule(q, s.tick + 1, clock, o);
    assert At(s.history.granted, key) + f.served + f.record.waiters
        == At(s.history.granted, key) + (f.served + f.record.waiters);
  }

  ghost function ServedOrWaiting(s: Limiter, key: Key): seq<Ticket> {
    At(s.history.granted, key) + RecordAt(s.records, key).waiters
  }

  /** Nothing that matters has happened to the key. */
  ghost predicate SameKey(s: Limiter, n: Limiter, key: Key) {
    && At(n.admissions, key) == At(s.admissions, key) && RecordAt(n.records, key).waiters == RecordAt(s.records, key).waiters
    && At(n.history.arrived, key) == At(s.history.arrived, key) && At(n.history.granted, key) == At(s.history.granted, key)
  }

  lemma LookupWaiters(s: Limiter, key: Key, clock: Clock, o: Options)
    requires Inv(s, clock, o) && o.Normalized() && NonDecreasing(clock)
    ensures Heads(s.records) && SameWaiters(s.records, Lookup(s.records, key, clock(s.tick), o))
  {
    hide AllOk, QueuesOk, Lookup, Heads, Valid, NonDecreasing, SameWaiters;
    LastReading(clock, s.tick);
    InvHeads(s.records, s.admissions, Last(clock, s.tick), o);
    LaterAll(s.records, s.admissions, Last(clock, s.tick), clock(s.tick), o);
    LookupOk(s.records, key, s.admissions, clock(s.tick), o);
  }

  lemma PruneWaits(l: Map<Record>, key: Key, now: real, o: Options)
    requires Heads(l) && key in l.at
    ensures l.at[key].head <= |l.at[key].timestamps| && Prune(l.at[key], now, o).waiters == l.at[key].waiters
  {
    PruneLive(l.at[key], now, o);
    hide Prune;
  }

  lemma FoundSame(s: Limiter, l: Map<Record>, found: Limiter, key: Key)
    requires SameWaiters(s.records, l) && key in l.at && found.admissions == s.admissions && found.history == s.history
    requires exists r: Record :: found.records == Set(l, key, r) && r.waiters == l.at[key].waiters
    ensures forall k :: SameKey(s, found, k)
  {
    forall k ensures RecordAt(found.records, k).waiters == RecordAt(s.records, k).waiters {
      assert RecordAt(l, k).waiters == RecordAt(s.records, k).waiters;
    }
  }

  // ---------- When the limiter wakes up ----------

  /** The queue is blocked at `now`, by a cooldown or by a full window, and the timer is armed for the instant the block
      ends, or as long ahead as a timer can be armed, 2^31 - 1 milliseconds. */
  ghost predicate WakesExactly(r: Record, now: real, o: Options) {
    && r.head <= |r.timestamps| && r.timer.Some?
    && if Cooling(r, now) then r.timer.value == Min(r.cooldownUntil.value, now + 2147483647.0)
       else Live(r) != [] && |Live(r)| >= o.maxRequests && now < Live(r)[0] + o.interval
            && r.timer.value == Min(Live(r)[0] + o.interval, now + 2147483647.0)
  }

  lemma {:induction false} ScheduleWakes(r: Record, tick: nat, clock: Clock, o: Options)
    requires o.Normalized() && r.head <= |r.timestamps| && r.timer.None? && tick > 0
    ensures var f := Schedule(r, tick, clock, o);
            f.tick > 0 && (f.record.waiters == [] || WakesExactly(f.record, Last(clock, f.tick), o))
    decreases |r.waiters|, 2
  {
    if r.waiters != [] {
      PruneLive(r, clock(tick), o);
      ArmWakes(Prune(r, clock(tick), o), clock(tick), tick + 1, clock, o);
    }
    hide Prune, Arm, WakesExactly;
  }

  lemma {:induction false} ArmWakes(r: Record, now: real, tick: nat, clock: Clock, o: Options)
    requires o.Normalized() && Pruned(r, now, o) && r.waiters != [] && r.timer.None?
    requires tick > 0 && now == clock(tick - 1)
    ensures var f := Arm(r, now, tick, clock, o);
            f.tick > 0 && (f.record.waiters == [] || WakesExactly(f.record, Last(clock, f.tick), o))
    decreases |r.waiters|, 1
  {
    var c := r.(cooldownUntil := None);
    if !Cooling(r, now) && ActiveCount(c) < o.maxRequests {
      PruneAgain(c, now, o);
      DrainWakes(c, now, tick, clock, o);
    }
    hide Prune, Drain;
  }

  lemma {:induction false} DrainWakes(r: Record, now: real, tick: nat, clock: Clock, o: Options)
    requires o.Normalized() && r.head <= |r.timestamps| && r.timer.None? && tick > 0
    ensures var f := Drain(r, now, tick, clock, o);
            f.tick > 0 && (f.record.waiters == [] || WakesExactly(f.record, Last(clock, f.tick), o))
    decreases |r.waiters|, if Admits(r, now, o) then 0 else 3
  {
    PruneLive(r, now, o);
    var p := Prune(r, now, o);
    var c := p.(cooldownUntil := None);
    if Cooling(p, now) {
      ScheduleWakes(p, tick, clock, o);
    } else {
      ScheduleWakes(AdmitFirst(c, Room(c, o), now), tick, clock, o);
    }
    hide Prune, Schedule, WakesExactly;
  }

  /** After a timer has fired, and after a Retry-After answer that re-arms it, whoever still waits is blocked, and the
      timer is armed for the end of the block. */
  lemma FiredWakes(s: Limiter, key: Key, clock: Clock, o: Options)
    requires Heads(s.records) && o.Normalized() && key in s.records.at
    ensures var n := TimerFires(s, key, clock, o);
            key in n.records.at
            && (n.records.at[key].waiters == [] || WakesExactly(n.records.at[key], Last(clock, n.tick), o))
  {
    assert s.records.at[key].head <= |s.records.at[key].timestamps|;
    hide Heads, Drain, WakesExactly;
    DrainWakes(s.records.at[key].(timer := None), clock(s.tick), s.tick + 1, clock, o);
  }

  lemma CooledWakes(s: Limiter, key: Key, until: real, clock: Clock, o: Options)
    requires Heads(s.records) && o.Normalized() && key in s.records.at && s.tick > 0
    ensures var n, r := Cooldown(s, key, until, clock, o), s.records.at[key];
            key in n.records.at
            && ((if r.cooldownUntil.Some? then r.cooldownUntil.value else 0.0) >= until || n.records.at[key].waiters == []
                || WakesExactly(n.records.at[key], Last(clock, n.tick), o))
  {
    assert s.records.at[key].head <= |s.records.at[key].timestamps|;
    hide Heads, Schedule, WakesExactly;
    ScheduleWakes(s.records.at[key].(cooldownUntil := Some(until), timer := None), s.tick, clock, o);
  }

  // ---------- Leaving ----------

  /** Waiters that leave are gone from their queues, the others keep their order, and no admission is forgotten. */
  lemma LeftExactly(s: Limiter, gone: set<Ticket>, key: Key)
    ensures var n := Cancel(s, gone);
            && RecordAt(n.records, key).waiters == Without(RecordAt(s.records, key).waiters, gone)
            && At(n.admissions, key) == At(s.admissions, key) && n.history.arrived == s.history.arrived
            && n.history.granted == s.history.granted
  {
    assert Without([], gone) == [];
  }

  // ---------- Eviction ----------

  /** No idle record is left beyond the maximum, and none goes within it. */
  lemma {:induction false} TrimBounds(m: Map<Record>, max: nat, i: nat, now: real, o: Options)
    requires Heads(m) && i <= |m.order| && Busy(m, i, now)
    ensures var t := Trim(m, max, i, now, o);
            && (|t.order| <= max || forall k | k in t.at :: !Idle(t.at[k], now))
            && (|t.order| >= max || t == m)
    decreases |m.order| - i
  {
    hide Heads, Prune, Delete, Set, Idle, Busy;
    if i < |m.order| && |m.order| > max {
      var key := m.order[i];
      InMap(m, i);
      var r := Prune(m.at[key], now, o);
      PruneHeads(m, key, now, o);
      if Idle(r, now) {
        DroppedBusy(m, i, now);
        TrimBounds(Delete(m, key), max, i, now, o);
      } else {
        SetBusy(m, i, r, now);
        TrimBounds(Set(m, key, r), max, i + 1, now, o);
      }
    } else {
      AllBusy(m, i, now);
    }
  }

  /** The first `i` records are in use. */
  ghost predicate Busy(m: Map<Record>, i: nat, now: real) {
    i <= |m.order| && forall j | 0 <= j < i :: m.order[j] in m.at && !Idle(m.at[m.order[j]], now)
  }

  lemma InMap(m: Map<Record>, i: nat)
    requires Heads(m) && i < |m.order|
    ensures m.order[i] in m.at && m.at[m.order[i]].head <= |m.at[m.order[i]].timestamps|
  {
    assert m.order[i] in m.order;
  }

  lemma DroppedBusy(m: Map<Record>, i: nat, now: real)
    requires Heads(m) && i < |m.order| && Busy(m, i, now)
    ensures Busy(Delete(m, m.order[i]), i, now)
  {
    DeleteValid(m, m.order[i]);
    assert m.order[i] in m.order && IndexOf(m.order, m.order[i]) == i;
    hide Delete, Idle;
  }

  lemma SetBusy(m: Map<Record>, i: nat, r: Record, now: real)
    requires Heads(m) && i < |m.order| && Busy(m, i, now) && !Idle(r, now) && m.order[i] in m.at
    ensures Busy(Set(m, m.order[i], r), i + 1, now) && |Set(m, m.order[i], r).order| == |m.order|
  {
    hide Idle;
  }

  lemma AllBusy(m: Map<Record>, i: nat, now: real)
    requires Heads(m) && Busy(m, i, now)
    ensures i == |m.order| ==> forall k | k in m.at :: !Idle(m.at[k], now)
  {
    assert forall k | k in m.at :: k in m.order;
    hide Idle;
  }
}
