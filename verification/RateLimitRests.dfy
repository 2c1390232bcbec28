/** What a Retry-After answer means: over every run, the time until which a key rests is determined by the answers alone. */
module RateLimitRests {
  import opened Collections
  import opened InsertionMap
  import opened Fifo
  import opened RollingWindow
  import opened RateLimit

  /** A clock that starts at or after zero, like the number of milliseconds since 1970, and does not go back. */
  ghost predicate Counting(clock: Clock) {
    NonDecreasing(clock) && clock(0) >= 0.0
  }

  function HeldUntil(r: Record): real {
    if r.cooldownUntil.Some? then r.cooldownUntil.value else 0.0
  }

  /** Up to when the key rests, as far as that still matters at `last`. */
  function Resting(r: Record, last: real): real {
    Max(HeldUntil(r), last)
  }

  // ---------- Scheduling forgets no rest ----------

  ghost predicate Keeps(p: Record, r: Record, last: real) {
    Resting(p, last) == Resting(r, last)
  }

  lemma Cleared(r: Record, now: real, last: real)
    requires !Cooling(r, now) && 0.0 <= now <= last
    ensures Keeps(r.(cooldownUntil := None), r, last)
  {
  }

  lemma LastOf(clock: Clock, tick: nat, later: nat)
    requires Counting(clock) && tick < later
    ensures 0.0 <= clock(tick) <= Last(clock, later)
  {
  }

  lemma {:induction false} ScheduleKeeps(r: Record, tick: nat, clock: Clock, o: Options)
    requires Counting(clock) && r.head <= |r.timestamps|
    ensures var f := Schedule(r, tick, clock, o); tick <= f.tick && Keeps(f.record, r, Last(clock, f.tick))
    decreases |r.waiters|, 2
  {
    if r.waiters != [] && r.timer.None? {
      PruneLive(r, clock(tick), o);
      ArmKeeps(Prune(r, clock(tick), o), clock(tick), tick + 1, clock, o);
    }
    hide Prune, Arm, Counting;
  }

  lemma {:induction false} ArmKeeps(r: Record, now: real, tick: nat, clock: Clock, o: Options)
    requires Counting(clock) && Pruned(r, now, o) && r.waiters != [] && tick > 0 && now == clock(tick - 1)
    ensures var f := Arm(r, now, tick, clock, o); tick <= f.tick && Keeps(f.record, r, Last(clock, f.tick))
    decreases |r.waiters|, 1
  {
    hide Prune, Drain, Counting, NonDecreasing;
    var c, f := r.(cooldownUntil := None), Arm(r, now, tick, clock, o);
    if !Cooling(r, now) {
      if ActiveCount(c) < o.maxRequests {
        PruneAgain(c, now, o);
        DrainKeeps(c, now, tick, clock, o);
      }
      LastOf(clock, tick - 1, f.tick);
      Cleared(r, now, Last(clock, f.tick));
    }
  }

  lemma {:induction false} DrainKeeps(r: Record, now: real, tick: nat, clock: Clock, o: Options)
    requires Counting(clock) && r.head <= |r.timestamps| && tick > 0 && now == clock(tick - 1)
    ensures var f := Drain(r, now, tick, clock, o); tick <= f.tick && Keeps(f.record, r, Last(clock, f.tick))
    decreases |r.waiters|, if Admits(r, now, o) then 0 else 3
  {
    PruneLive(r, now, o);
    hide Prune, Schedule, Counting, NonDecreasing;
    var p, f := Prune(r, now, o), Drain(r, now, tick, clock, o);
    var c := p.(cooldownUntil := None);
    if Cooling(p, now) {
      ScheduleKeeps(p, tick, clock, o);
    } else {
      ScheduleKeeps(AdmitFirst(c, Room(c, o), now), tick, clock, o);
      LastOf(clock, tick - 1, f.tick);
      Cleared(p, now, Last(clock, f.tick));
    }
  }

  // ---------- Eviction forgets no rest that matters ----------

  ghost predicate SameRests(m: Map<Record>, n: Map<Record>, last: real) {
    forall k :: Keeps(RecordAt(n, k), RecordAt(m, k), last)
  }

  lemma {:induction false} TrimRests(m: Map<Record>, max: nat, i: nat, now: real, o: Options)
    requires Heads(m) && i <= |m.order| && now >= 0.0
    ensures SameRests(m, Trim(m, max, i, now, o), now)
    decreases |m.order| - i
  {
    hide Prune, Delete, Set, Heads, Valid, SameRests, Keeps;
    if i < |m.order| && |m.order| > max {
      var key := m.order[i];
      Known(m, i);
      var r := Prune(m.at[key], now, o);
      PruneHeads(m, key, now, o);
      OneRest(m, key, now, o);
      if Idle(r, now) {
        TrimRests(Delete(m, key), max, i, now, o);
        RestsOn(m, Delete(m, key), Trim(m, max, i, now, o), now);
      } else {
        SetSize(m, key, r);
        TrimRests(Set(m, key, r), max, i + 1, now, o);
        RestsOn(m, Set(m, key, r), Trim(m, max, i, now, o), now);
      }
    } else {
      NoneMoved(m, now);
    }
  }

  lemma NoneMoved(m: Map<Record>, now: real)
    ensures SameRests(m, m, now)
  {
  }

  lemma Known(m: Map<Record>, i: nat)
    requires Heads(m) && i < |m.order|
    ensures m.order[i] in m.at && m.at[m.order[i]].head <= |m.at[m.order[i]].timestamps|
  {
    assert m.order[i] in m.order;
  }

  lemma SetSize(m: Map<Record>, key: Key, r: Record)
    requires key in m.at
    ensures Set(m, key, r).order == m.order
  {
  }

  lemma OneRest(m: Map<Record>, key: Key, now: real, o: Options)
    requires Heads(m) && key in m.at && m.at[key].head <= |m.at[key].timestamps| && now >= 0.0
    ensures var r := Prune(m.at[key], now, o);
            && SameRests(m, Set(m, key, r), now)
            && (Idle(r, now) ==> SameRests(m, Delete(m, key), now))
  {
    PruneLive(m.at[key], now, o);
    PruneHeads(m, key, now, o);
    hide Prune, Delete, Heads;
  }

  lemma RestsOn(m: Map<Record>, m': Map<Record>, m'': Map<Record>, now: real)
    requires SameRests(m, m', now) && SameRests(m', m'', now)
    ensures SameRests(m, m'', now)
  {
  }

  lemma LookupRests(m: Map<Record>, key: Key, now: real, o: Options)
    requires Heads(m) && o.Normalized() && now >= 0.0
    ensures SameRests(m, Lookup(m, key, now, o), now)
  {
    hide Heads, Trim, Valid, SameRests, Keeps;
    NoneMoved(m, now);
    if key !in m.at {
      var t := Trim(m, o.maxKeys - 1, 0, now, o);
      TrimRests(m, o.maxKeys - 1, 0, now, o);
      TrimHeads(m, o.maxKeys - 1, 0, now, o);
      FreshRest(m, t, key, now, o);
    }
  }

  lemma FreshRest(m: Map<Record>, t: Map<Record>, key: Key, now: real, o: Options)
    requires SameRests(m, t, now) && key !in m.at && now >= 0.0
    ensures SameRests(m, Set(t, key, FRESH_RECORD), now)
  {
    forall k ensures Keeps(RecordAt(Set(t, key, FRESH_RECORD), k), RecordAt(m, k), now) {
      assert Keeps(RecordAt(t, k), RecordAt(m, k), now);
    }
  }

  // ---------- One event ----------

  /** Until when a key rests once an event has happened that began when it rested until `until`. */
  ghost function RestAfter(s: Limiter, e: Event, key: Key, until: real, clock: Clock, o: Options): real {
    match e
    case TooMany(k, delay) => if k == key then Max(until, clock(s.tick) + Min(delay, o.maxRetryAfter)) else until
    case Uninstall(i) => if s.installed - {i} == {} then 0.0 else until
    case _ => until
  }

  /** What an event makes of the rest of a key: the time until which it rests is the expected one, as far as it still
      matters, and whoever was admitted came after the rest there was before. */
  ghost predicate Rests(s: Limiter, n: Limiter, e: Event, key: Key, clock: Clock, o: Options) {
    && s.tick <= n.tick
    && Resting(RecordAt(n.records, key), Last(clock, n.tick))
       == Max(RestAfter(s, e, key, HeldUntil(RecordAt(s.records, key)), clock, o), Last(clock, n.tick))
    && (n.installed != {} || s.installed == {} ==> LaterOnly(At(s.admissions, key), At(n.admissions, key),
          Max(RestAfter(s, e, key, HeldUntil(RecordAt(s.records, key)), clock, o), Last(clock, s.tick))))
  }

  /** The log has grown, by admissions no earlier than `from`. */
  ghost predicate LaterOnly(h: seq<real>, h': seq<real>, from: real) {
    h <= h' && forall i | |h| <= i < |h'| :: h'[i] >= from
  }

  /** The clock goes on, and nothing has happened to the key. */
  ghost predicate Unmoved(s: Limiter, n: Limiter, key: Key, clock: Clock) {
    && s.tick <= n.tick
    && Keeps(RecordAt(n.records, key), RecordAt(s.records, key), Last(clock, n.tick))
    && At(n.admissions, key) == At(s.admissions, key)
  }

  lemma LastGrows(clock: Clock, tick: nat, later: nat)
    requires Counting(clock) && tick <= later
    ensures 0.0 <= Last(clock, tick) <= Last(clock, later)
  {
  }

  lemma UnmovedRests(s: Limiter, n: Limiter, e: Event, key: Key, clock: Clock, o: Options)
    requires Unmoved(s, n, key, clock)
    requires RestAfter(s, e, key, HeldUntil(RecordAt(s.records, key)), clock, o) == HeldUntil(RecordAt(s.records, key))
    ensures Rests(s, n, e, key, clock, o)
  {
  }

  lemma ServedElsewhere(s: Limiter, key: Key, f: Flow, k: Key)
    requires k != key
    ensures var n := Served(s, key, f);
            RecordAt(n.records, k) == RecordAt(s.records, k) && At(n.admissions, k) == At(s.admissions, k)
  {
  }

  lemma ServedHere(s: Limiter, key: Key, f: Flow)
    ensures var n := Served(s, key, f);
            RecordAt(n.records, key) == f.record && At(n.admissions, key) == At(s.admissions, key) + f.times
  {
  }

  /** A flow from the record of the key, or from one with the same rest. */
  lemma FlowRests(s: Limiter, found: Limiter, key: Key, f: Flow, r: Record, k: Key, clock: Clock, o: Options)
    requires Counting(clock) && s.tick <= found.tick <= f.tick
    requires SameRests(s.records, found.records, Last(clock, found.tick)) && found.admissions == s.admissions
    requires Keeps(f.record, r, Last(clock, f.tick)) && AfterRest(f, r.cooldownUntil, Last(clock, found.tick))
    requires HeldUntil(r) >= HeldUntil(RecordAt(found.records, key))
    ensures var n := Served(found, key, f);
            && s.tick <= n.tick
            && Resting(RecordAt(n.records, k), Last(clock, n.tick))
               == Max(if k == key then HeldUntil(r) else HeldUntil(RecordAt(s.records, k)), Last(clock, n.tick))
            && LaterOnly(At(s.admissions, k), At(n.admissions, k),
                         if k == key then Max(HeldUntil(r), Last(clock, found.tick))
                         else Resting(RecordAt(s.records, k), Last(clock, s.tick)))
            && (k == key ==>
                  Resting(RecordAt(s.records, k), Last(clock, s.tick)) <= Max(HeldUntil(r), Last(clock, found.tick)))
  {
    var n := Served(found, key, f);
    assert Keeps(RecordAt(found.records, k), RecordAt(s.records, k), Last(clock, found.tick));
    LastGrows(clock, s.tick, found.tick);
    LastGrows(clock, found.tick, f.tick);
    ServedHere(found, key, f);
    if k != key {
      ServedElsewhere(found, key, f, k);
    }
    hide Served, RecordAt, At, Counting, SameRests;
  }

  /** The record of the key found, or created, and pruned. */
  lemma FoundRests(s: Limiter, key: Key, clock: Clock, o: Options)
    requires Counting(clock) && Heads(s.records) && o.Normalized()
    ensures var now := clock(s.tick);
            var l := Lookup(s.records, key, now, o);
            && Heads(l) && key in l.at && SameRests(s.records, l, now)
            && l.at[key].head <= |l.at[key].timestamps|
            && Heads(Set(l, key, Prune(l.at[key], now, o)))
            && SameRests(s.records, Set(l, key, Prune(l.at[key], now, o)), now)
  {
    hide Valid, Prune, Lookup, SameRests;
    var now := clock(s.tick);
    var l := Lookup(s.records, key, now, o);
    LastOf(clock, s.tick, s.tick + 1);
    LookupHeads(s.records, key, now, o);
    LookupRests(s.records, key, now, o);
    OneRest(l, key, now, o);
    PruneHeads(l, key, now, o);
    RestsOn(s.records, l, Set(l, key, Prune(l.at[key], now, o)), now);
  }

  lemma AskRests(s: Limiter, t: Ticket, key: Key, refused: bool, k: Key, clock: Clock, o: Options)
    requires Counting(clock) && Heads(s.records) && o.Normalized()
    ensures Rests(s, Request(s, t, key, refused, clock, o).0, Ask(t, key, refused), k, clock, o)
  {
    hide Heads, Lookup, Prune, Answering, SameRests, Counting, NonDecreasing;
    var now := clock(s.tick);
    FoundRests(s, key, clock, o);
    var l := Lookup(s.records, key, now, o);
    var found := s.(records := Set(l, key, Prune(l.at[key], now, o)), tick := s.tick + 1);
    AnsweringRests(s, found, t, key, refused, k, clock, o);
    OnlyAsks(s, Request(s, t, key, refused, clock, o).0, t, key, refused, k, clock, o);
  }

  /** What remains to be shown of a request. */
  ghost predicate AskedRests(s: Limiter, n: Limiter, k: Key, clock: Clock) {
    && s.tick <= n.tick
    && Resting(RecordAt(n.records, k), Last(clock, n.tick)) == Max(HeldUntil(RecordAt(s.records, k)), Last(clock, n.tick))
    && LaterOnly(At(s.admissions, k), At(n.admissions, k), Resting(RecordAt(s.records, k), Last(clock, s.tick)))
  }

  lemma OnlyAsks(s: Limiter, n: Limiter, t: Ticket, key: Key, refused: bool, k: Key, clock: Clock, o: Options)
    requires AskedRests(s, n, k, clock)
    ensures Rests(s, n, Ask(t, key, refused), k, clock, o)
  {
  }

  lemma AnsweringRests(s: Limiter, found: Limiter, t: Ticket, key: Key, refused: bool, k: Key, clock: Clock, o: Options)
    requires Counting(clock) && found.tick == s.tick + 1 && found.admissions == s.admissions
    requires Heads(found.records) && key in found.records.at && SameRests(s.records, found.records, clock(s.tick))
    ensures AskedRests(s, Answering(found, t, key, refused, clock(s.tick), clock, o).0, k, clock)
  {
    hide Heads, SameRests, Served, Counting, NonDecreasing, Schedule, Arrive, AskedRests;
    var now, r := clock(s.tick), found.records.at[key];
    if r.waiters == [] && Rested(r, now) && ActiveCount(r) < o.maxRequests {
      AdmittedRests(s, found, key, k, clock, o);
    } else if !refused && |r.waiters| < o.maxQueue {
      QueuedRests(s, found, t, key, k, clock, o);
    } else {
      SameAsked(s, found, k, clock);
    }
  }

  lemma AdmittedRests(s: Limiter, found: Limiter, key: Key, k: Key, clock: Clock, o: Options)
    requires Counting(clock) && found.tick == s.tick + 1 && found.admissions == s.admissions
    requires key in found.records.at && SameRests(s.records, found.records, clock(s.tick))
    requires Rested(found.records.at[key], clock(s.tick))
    ensures var now, r := clock(s.tick), found.records.at[key];
            AskedRests(s, Served(found, key, Flow(r.(timestamps := r.timestamps + [now]), found.tick, [], [now])), k, clock)
  {
    hide SameRests, Counting, NonDecreasing, At, Grant;
    var now, r := clock(s.tick), found.records.at[key];
    assert Last(clock, found.tick) == now;
    FlowRests(s, found, key, Flow(r.(timestamps := r.timestamps + [now]), found.tick, [], [now]), r, k, clock, o);
    SameHeld(s.records, found.records, key, now, found.tick, clock);
  }

  lemma QueuedRests(s: Limiter, found: Limiter, t: Ticket, key: Key, k: Key, clock: Clock, o: Options)
    requires Counting(clock) && found.tick == s.tick + 1 && found.admissions == s.admissions && Heads(found.records)
    requires key in found.records.at && SameRests(s.records, found.records, clock(s.tick))
    ensures var r := found.records.at[key];
            var q := r.(waiters := r.waiters + [t]);
            var joined := found.(records := Set(found.records, key, q), history := Arrive(found.history, t, key));
            && q.head <= |q.timestamps|
            && AskedRests(s, Served(joined, key, Schedule(q, found.tick + 1, clock, o)), k, clock)
  {
    assert found.records.at[key].head <= |found.records.at[key].timestamps|;
    hide Heads, SameRests, Served, Counting, NonDecreasing, Schedule, Arrive;
    var now, r := clock(s.tick), found.records.at[key];
    var q := r.(waiters := r.waiters + [t]);
    var joined := found.(records := Set(found.records, key, q), history := Arrive(found.history, t, key));
    JoinedRests(s.records, found.records, key, q, now);
    AfterNow(q, found.tick, clock, o);
    FlowRests(s, joined, key, Schedule(q, found.tick + 1, clock, o), q, k, clock, o);
    SameHeld(s.records, found.records, key, now, Schedule(q, found.tick + 1, clock, o).tick, clock);
  }

  lemma SameHeld(m: Map<Record>, found: Map<Record>, key: Key, now: real, tick: nat, clock: Clock)
    requires SameRests(m, found, now) && key in found.at && now <= Last(clock, tick)
    ensures Max(HeldUntil(found.at[key]), Last(clock, tick)) == Max(HeldUntil(RecordAt(m, key)), Last(clock, tick))
  {
    assert Keeps(RecordAt(found, key), RecordAt(m, key), now);
  }

  lemma SameAsked(s: Limiter, n: Limiter, k: Key, clock: Clock)
    requires s.tick <= n.tick && n.admissions == s.admissions && SameRests(s.records, n.records, Last(clock, n.tick))
    ensures AskedRests(s, n, k, clock)
  {
    assert Keeps(RecordAt(n.records, k), RecordAt(s.records, k), Last(clock, n.tick));
  }

  lemma JoinedRests(m: Map<Record>, found: Map<Record>, key: Key, q: Record, now: real)
    requires SameRests(m, found, now) && key in found.at && q.cooldownUntil == found.at[key].cooldownUntil
    ensures SameRests(m, Set(found, key, q), now)
  {
    forall k ensures Keeps(RecordAt(Set(found, key, q), k), RecordAt(m, k), now) {
      assert Keeps(RecordAt(found, k), RecordAt(m, k), now);
    }
  }

  /** Scheduling after another reading of the clock. */
  lemma AfterNow(q: Record, tick: nat, clock: Clock, o: Options)
    requires Counting(clock) && q.head <= |q.timestamps|
    ensures var f := Schedule(q, tick + 1, clock, o);
            && tick <= f.tick && Keeps(f.record, q, Last(clock, f.tick))
            && AfterRest(f, q.cooldownUntil, Last(clock, tick))
  {
    ScheduleKeeps(q, tick + 1, clock, o);
    ScheduleRests(q, tick + 1, clock, o);
    assert Last(clock, tick) <= clock(tick + 1);
    hide Schedule;
  }

  lemma TooManyRests(s: Limiter, key: Key, delay: real, k: Key, clock: Clock, o: Options)
    requires Counting(clock) && Heads(s.records) && o.Normalized()
    ensures Rests(s, RetryAfter(s, key, delay, clock, o), TooMany(key, delay), k, clock, o)
  {
    hide Heads, Lookup, Prune, Cooldown, SameRests, Counting, NonDecreasing;
    var now := clock(s.tick);
    FoundRests(s, key, clock, o);
    var found := s.(records := Lookup(s.records, key, now, o), tick := s.tick + 1);
    CooldownRests(s, found, key, now + Min(delay, o.maxRetryAfter), k, clock, o);
    OnlyCools(s, Cooldown(found, key, now + Min(delay, o.maxRetryAfter), clock, o), key, delay, k, clock, o);
  }

  ghost predicate CooledRests(s: Limiter, n: Limiter, key: Key, until: real, k: Key, clock: Clock) {
    var rest := if k == key then Max(HeldUntil(RecordAt(s.records, k)), until) else HeldUntil(RecordAt(s.records, k));
    && s.tick <= n.tick
    && Resting(RecordAt(n.records, k), Last(clock, n.tick)) == Max(rest, Last(clock, n.tick))
    && LaterOnly(At(s.admissions, k), At(n.admissions, k), Max(rest, Last(clock, s.tick)))
  }

  lemma OnlyCools(s: Limiter, n: Limiter, key: Key, delay: real, k: Key, clock: Clock, o: Options)
    requires CooledRests(s, n, key, clock(s.tick) + Min(delay, o.maxRetryAfter), k, clock)
    ensures Rests(s, n, TooMany(key, delay), k, clock, o)
  {
  }

  lemma CooldownRests(s: Limiter, found: Limiter, key: Key, until: real, k: Key, clock: Clock, o: Options)
    requires Counting(clock) && found.tick == s.tick + 1 && found.admissions == s.admissions
    requires Heads(found.records) && key in found.records.at && SameRests(s.records, found.records, clock(s.tick))
    ensures CooledRests(s, Cooldown(found, key, until, clock, o), key, until, k, clock)
  {
    var r := found.records.at[key];
    assert r.head <= |r.timestamps|;
    assert Keeps(r, RecordAt(s.records, key), Last(clock, found.tick));
    hide Heads, SameRests, Served, Counting, NonDecreasing, Schedule;
    if HeldUntil(r) >= until {
      SameAsked(s, found, k, clock);
    } else {
      var c := r.(cooldownUntil := Some(until), timer := None);
      ScheduleKeeps(c, found.tick, clock, o);
      AfterHere(c, found.tick, clock, o);
      FlowRests(s, found, key, Schedule(c, found.tick, clock, o), c, k, clock, o);
      LastGrows(clock, found.tick, Schedule(c, found.tick, clock, o).tick);
    }
  }

  lemma AfterHere(q: Record, tick: nat, clock: Clock, o: Options)
    requires Counting(clock) && q.head <= |q.timestamps|
    ensures AfterRest(Schedule(q, tick, clock, o), q.cooldownUntil, Last(clock, tick))
  {
    ScheduleRests(q, tick, clock, o);
    assert Last(clock, tick) <= clock(tick);
    hide Schedule;
  }

  lemma FireRests(s: Limiter, key: Key, k: Key, clock: Clock, o: Options)
    requires Counting(clock) && Heads(s.records) && key in s.records.at
    ensures Rests(s, TimerFires(s, key, clock, o), Fire(key), k, clock, o)
  {
    var r, now := s.records.at[key].(timer := None), clock(s.tick);
    assert r.head <= |r.timestamps|;
    DrainKeeps(r, now, s.tick + 1, clock, o);
    DrainRests(r, now, s.tick + 1, clock, o);
    NoneMoved(s.records, Last(clock, s.tick));
    assert Last(clock, s.tick) <= now;
    hide Heads, SameRests, Served, Counting, NonDecreasing, Drain;
    FlowRests(s, s, key, Drain(r, now, s.tick + 1, clock, o), r, k, clock, o);
  }

  lemma LookRests(s: Limiter, key: Key, k: Key, clock: Clock, o: Options)
    requires Counting(clock) && Heads(s.records)
    ensures Rests(s, Inspect(s, key, clock, o), Look(key), k, clock, o)
  {
    LastOf(clock, s.tick, s.tick + 1);
    if key in s.records.at {
      PruneLive(s.records.at[key], clock(s.tick), o);
    }
    hide Heads, Prune, Counting;
    UnmovedRests(s, Inspect(s, key, clock, o), Look(key), k, clock, o);
  }

  lemma StepRests(s: Limiter, e: Event, k: Key, clock: Clock, o: Options)
    requires Inv(s, clock, o) && o.Normalized() && Counting(clock) && Enabled(s, e)
    ensures Rests(s, Step(s, e, clock, o), e, k, clock, o)
  {
    hide AllOk, Valid, QueuesOk, Counting, NonDecreasing, Rests, Request, RetryAfter, TimerFires, Inspect, Heads;
    InvHeads(s.records, s.admissions, Last(clock, s.tick), o);
    match e
    case Ask(t, key, refused) => AskRests(s, t, key, refused, k, clock, o);
    case TooMany(key, delay) => TooManyRests(s, key, delay, k, clock, o);
    case Fire(key) => FireRests(s, key, k, clock, o);
    case Look(key) => LookRests(s, key, k, clock, o);
    case _ => LeavingRests(s, e, k, clock, o);
  }

  lemma LeavingRests(s: Limiter, e: Event, k: Key, clock: Clock, o: Options)
    requires Inv(s, clock, o) && o.Normalized() && Counting(clock) && Enabled(s, e)
    requires e.Install? || e.Leave? || e.Uninstall?
    ensures Rests(s, Step(s, e, clock, o), e, k, clock, o)
  {
    hide AllOk, Valid, QueuesOk, Counting, NonDecreasing, OwnWaiters, AllWaiting, Cancel;
    LastGrows(clock, s.tick, s.tick);
    match e
    case Leave(gone) => CancelRests(s, gone, k);
    case Uninstall(i) => CancelRests(s, OwnWaiters(s, i), k);
    case Install(_) =>
  }

  lemma CancelRests(s: Limiter, gone: set<Ticket>, k: Key)
    ensures var n := Cancel(s, gone);
            && n.tick == s.tick && n.admissions == s.admissions && n.installed == s.installed
            && HeldUntil(RecordAt(n.records, k)) == HeldUntil(RecordAt(s.records, k))
  {
    hide Without;
  }

  // ---------- Every run ----------

  /** The time until which a key rests, from the events alone: every Retry-After answer extends it, and the removal of
      the last installation ends it. */
  ghost function RestUntil(s: Limiter, events: seq<Event>, key: Key, until: real, clock: Clock, o: Options): real
    requires Inv(s, clock, o) && o.Normalized() && Counting(clock) && Allowed(s, events, clock, o)
    decreases |events|
  {
    if events == [] then until
    else
      RestUntil(Step(s, events[0], clock, o), events[1..], key, RestAfter(s, events[0], key, until, clock, o), clock, o)
  }

  lemma {:induction false} RunRests(s: Limiter, events: seq<Event>, key: Key, until: real, clock: Clock, o: Options)
    requires Inv(s, clock, o) && o.Normalized() && Counting(clock) && Allowed(s, events, clock, o)
    requires Resting(RecordAt(s.records, key), Last(clock, s.tick)) == Max(until, Last(clock, s.tick))
    ensures var n := Run(s, events, clock, o);
            Resting(RecordAt(n.records, key), Last(clock, n.tick))
            == Max(RestUntil(s, events, key, until, clock, o), Last(clock, n.tick))
    decreases |events|
  {
    hide AllOk, Valid, QueuesOk, NonDecreasing, Step, Enabled, Last;
    if events != [] {
      StepRests(s, events[0], key, clock, o);
      var n := Step(s, events[0], clock, o);
      LastGrows(clock, s.tick, n.tick);
      SameMax(s, events[0], key, HeldUntil(RecordAt(s.records, key)), until, n.tick, clock, o);
      RunRests(n, events[1..], key, RestAfter(s, events[0], key, until, clock, o), clock, o);
    }
  }

  lemma SameMax(s: Limiter, e: Event, key: Key, a: real, b: real, tick: nat, clock: Clock, o: Options)
    requires Max(a, Last(clock, s.tick)) == Max(b, Last(clock, s.tick)) && Last(clock, s.tick) <= Last(clock, tick)
    ensures Max(RestAfter(s, e, key, a, clock, o), Last(clock, tick))
         == Max(RestAfter(s, e, key, b, clock, o), Last(clock, tick))
  {
    hide Last;
  }

  /** In every run a request is admitted at once if and only if nobody waits for its key, every Retry-After answer to
      the key lies at least min(delay, maxRetryAfter) back, and the interval that ends now has room. */
  lemma AnsweredByHistory(events: seq<Event>, t: Ticket, key: Key, refused: bool, clock: Clock, o: Options)
    requires o.Normalized() && Counting(clock) && Inv(EMPTY, clock, o) && Allowed(EMPTY, events, clock, o)
    requires IsNew(Run(EMPTY, events, clock, o), t) && Heads(Run(EMPTY, events, clock, o).records)
    ensures var s := Run(EMPTY, events, clock, o);
            var now := clock(s.tick);
            Request(s, t, key, refused, clock, o).1 == Admitted
            <==> && RecordAt(s.records, key).waiters == [] && RestUntil(EMPTY, events, key, 0.0, clock, o) <= now
                 && |InWindow(At(s.admissions, key), now, o)| < o.maxRequests
  {
    hide AllOk, Valid, QueuesOk, NonDecreasing, InWindow, Request, Run, RestUntil;
    RunRests(EMPTY, events, key, 0.0, clock, o);
    var s := Run(EMPTY, events, clock, o);
    LastReading(clock, s.tick);
    AdmittedExactly(s, t, key, refused, clock, o);
  }

  /** From a state in which the key rests until `until`, as long as an installation is there, nobody is admitted before. */
  lemma {:induction false} NobodyBefore(s: Limiter, events: seq<Event>, key: Key, until: real, clock: Clock, o: Options)
    requires Inv(s, clock, o) && o.Normalized() && Counting(clock) && Allowed(s, events, clock, o)
    requires until <= Resting(RecordAt(s.records, key), Last(clock, s.tick)) && StaysInstalled(s, events, clock, o)
    ensures LaterOnly(At(s.admissions, key), At(Run(s, events, clock, o).admissions, key), until)
    decreases |events|
  {
    hide AllOk, Valid, QueuesOk, NonDecreasing, Step, Enabled, Last;
    if events != [] {
      StepRests(s, events[0], key, clock, o);
      var n := Step(s, events[0], clock, o);
      Installed(s, events[0], clock, o);
      LastGrows(clock, s.tick, n.tick);
      NobodyBefore(n, events[1..], key, until, clock, o);
    }
  }

  /** The plugin is never left without installations. */
  ghost predicate StaysInstalled(s: Limiter, events: seq<Event>, clock: Clock, o: Options)
    requires Inv(s, clock, o) && o.Normalized() && NonDecreasing(clock) && Allowed(s, events, clock, o)
    decreases |events|
  {
    s.installed != {} && (events != [] ==> StaysInstalled(Step(s, events[0], clock, o), events[1..], clock, o))
  }

  lemma Installed(s: Limiter, e: Event, clock: Clock, o: Options)
    requires Inv(s, clock, o) && o.Normalized() && NonDecreasing(clock) && Enabled(s, e)
    ensures e.Uninstall? ==> Step(s, e, clock, o).installed == s.installed - {e.installation}
  {
    hide Inv, Cancel, OwnWaiters;
    assert e.Uninstall? ==> Cancel(s, OwnWaiters(s, e.installation)).installed == s.installed by {
      CancelRests(s, OwnWaiters(s, if e.Uninstall? then e.installation else 0), 0);
    }
  }

  /** After a Retry-After answer for a key, while an installation remains: no admission of the key, at once or from the
      queue, is logged before now + min(delay, maxRetryAfter). */
  lemma RetryAfterRests(s: Limiter, key: Key, delay: real, events: seq<Event>, clock: Clock, o: Options)
    requires Inv(s, clock, o) && o.Normalized() && Counting(clock) && Enabled(s, TooMany(key, delay))
    requires Allowed(s, [TooMany(key, delay)] + events, clock, o)
    requires StaysInstalled(s, [TooMany(key, delay)] + events, clock, o)
    ensures var n := Run(s, [TooMany(key, delay)] + events, clock, o);
            var until := clock(s.tick) + (if delay <= o.maxRetryAfter then delay else o.maxRetryAfter);
            var before, after := At(s.admissions, key), At(n.admissions, key);
            before <= after && forall i | |before| <= i < |after| :: after[i] >= until
  {
    hide AllOk, Valid, QueuesOk, NonDecreasing, Enabled, Last, Step, LaterOnly, RecordAt, At;
    var e, until := TooMany(key, delay), clock(s.tick) + Min(delay, o.maxRetryAfter);
    FirstStep(s, e, events, clock, o);
    var n := Step(s, e, clock, o);
    RestsNow(s, key, delay, clock, o);
    NobodyBefore(n, events, key, until, clock, o);
    LaterTwice(At(s.admissions, key), At(n.admissions, key), At(Run(n, events, clock, o).admissions, key), until);
  }

  lemma FirstStep(s: Limiter, e: Event, events: seq<Event>, clock: Clock, o: Options)
    requires Inv(s, clock, o) && o.Normalized() && NonDecreasing(clock) && Enabled(s, e)
    requires Allowed(s, [e] + events, clock, o) && StaysInstalled(s, [e] + events, clock, o)
    ensures var n := Step(s, e, clock, o);
            && Allowed(n, events, clock, o) && StaysInstalled(n, events, clock, o)
            && Run(s, [e] + events, clock, o) == Run(n, events, clock, o) && n.installed != {}
  {
    hide Inv, NonDecreasing, Enabled, Step;
    assert ([e] + events)[0] == e && ([e] + events)[1..] == events;
  }

  lemma RestsNow(s: Limiter, key: Key, delay: real, clock: Clock, o: Options)
    requires Inv(s, clock, o) && o.Normalized() && Counting(clock) && Enabled(s, TooMany(key, delay))
    requires Step(s, TooMany(key, delay), clock, o).installed != {}
    ensures var n, until := Step(s, TooMany(key, delay), clock, o), clock(s.tick) + Min(delay, o.maxRetryAfter);
            && until <= Resting(RecordAt(n.records, key), Last(clock, n.tick))
            && LaterOnly(At(s.admissions, key), At(n.admissions, key), until)
  {
    hide AllOk, Valid, QueuesOk, NonDecreasing, Enabled, Last, Step, RecordAt, At;
    StepRests(s, TooMany(key, delay), key, clock, o);
  }

  lemma LaterTwice(a: seq<real>, b: seq<real>, c: seq<real>, from: real)
    requires LaterOnly(a, b, from) && LaterOnly(b, c, from)
    ensures a <= c && forall i | |a| <= i < |c| :: c[i] >= from
  {
  }
}
