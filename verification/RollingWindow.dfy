/** One record of the rate limiter: the admission log, the queue, its timer and the shared cooldown. */
module RollingWindow {
  import opened Collections

  const MAX_TIMER_DELAY := 2147483647.0

  datatype Options = Options(maxRequests: nat, interval: real, maxQueue: nat, maxKeys: nat, maxRetryAfter: real)
  {
    predicate Normalized() {
      maxRequests >= 1 && interval >= 1.0 && maxKeys >= 1 && maxRetryAfter >= 1.0
    }
  }

  /** `timestamps` is a log read from `head` on; `timer` is the instant the armed timer is due. */
  datatype Record = Record(timestamps: seq<real>, head: nat, waiters: seq<Ticket>, timer: Option<real>,
                           cooldownUntil: Option<real>)

  const FRESH_RECORD := Record([], 0, [], None, None)

  /** The n-th reading of the clock. */
  type Clock = nat -> real

  ghost predicate NonDecreasing(clock: Clock) {
    forall i: nat, j: nat :: i <= j ==> clock(i) <= clock(j)
  }

  function Min(a: real, b: real): real {
    if a <= b then a else b
  }

  function Max(a: real, b: real): real {
    if a <= b then b else a
  }

  // ---------- Steps ----------

  function ExpiredHead(timestamps: seq<real>, head: nat, threshold: real): (h: nat)
    requires head <= |timestamps|
    ensures head <= h <= |timestamps|
    ensures forall i | head <= i < h :: timestamps[i] <= threshold
    ensures h < |timestamps| ==> timestamps[h] > threshold
    decreases |timestamps| - head
  {
    if head < |timestamps| && timestamps[head] <= threshold then ExpiredHead(timestamps, head + 1, threshold) else head
  }

  /** Skips expired timestamps; a long enough dead prefix is cut off. */
  function Prune(r: Record, now: real, o: Options): Record
    requires r.head <= |r.timestamps|
  {
    var h := ExpiredHead(r.timestamps, r.head, now - o.interval);
    if h >= 1024 && h * 2 >= |r.timestamps| then r.(timestamps := r.timestamps[h..], head := 0) else r.(head := h)
  }

  function Live(r: Record): seq<real>
    requires r.head <= |r.timestamps|
  {
    r.timestamps[r.head..]
  }

  function ActiveCount(r: Record): int {
    |r.timestamps| - r.head
  }

  predicate Cooling(r: Record, now: real) {
    r.cooldownUntil.Some? && r.cooldownUntil.value > now
  }

  /** The state after some scheduling, the clock readings used so far, and who was admitted when. */
  datatype Flow = Flow(record: Record, tick: nat, served: seq<Ticket>, times: seq<real>)

  function Room(r: Record, o: Options): (k: nat)
    ensures k <= |r.waiters|
  {
    if ActiveCount(r) >= o.maxRequests then 0
    else if |r.waiters| <= o.maxRequests - ActiveCount(r) then |r.waiters| else o.maxRequests - ActiveCount(r)
  }

  /** Admits the first `k` waiters at once; the timer of an emptied queue is cleared. */
  function AdmitFirst(r: Record, k: nat, now: real): Record
    requires k <= |r.waiters|
  {
    r.(waiters := r.waiters[k..], timestamps := r.timestamps + Repeat(now, k),
       timer := if k == |r.waiters| > 0 then None else r.timer)
  }

  function Repeat(x: real, k: nat): (s: seq<real>)
    ensures |s| == k && forall i | 0 <= i < k :: s[i] == x
  {
    if k == 0 then [] else Repeat(x, k - 1) + [x]
  }

  /** Whether draining at `now` admits somebody. */
  predicate Admits(r: Record, now: real, o: Options)
    requires r.head <= |r.timestamps|
  {
    !Cooling(r, now) && Room(Prune(r, now, o), o) > 0
  }

  /** Nothing at the front of the log has expired. */
  predicate Pruned(r: Record, now: real, o: Options) {
    r.head <= |r.timestamps| && (Live(r) == [] || Live(r)[0] > now - o.interval)
  }

  /** Serves the queue now if it can, and otherwise arms the timer for the next moment it could. The recursion
      ends: every round admits a waiter, clears an expired cooldown, or arms the timer. */
  function Schedule(r: Record, tick: nat, clock: Clock, o: Options): (f: Flow)
    requires r.head <= |r.timestamps|
    decreases |r.waiters|, 2
  {
    if r.waiters == [] || r.timer.Some? then Flow(r, tick, [], [])
    else PruneLive(r, clock(tick), o); Arm(Prune(r, clock(tick), o), clock(tick), tick + 1, clock, o)
  }

  function Arm(r: Record, now: real, tick: nat, clock: Clock, o: Options): (f: Flow)
    requires Pruned(r, now, o) && r.waiters != []
    decreases |r.waiters|, 1
  {
    if Cooling(r, now) then
      Flow(r.(timer := Some(now + Min(r.cooldownUntil.value - now, MAX_TIMER_DELAY))), tick, [], [])
    else
      var c := r.(cooldownUntil := None);
      if ActiveCount(c) < o.maxRequests then PruneAgain(c, now, o); Drain(c, now, tick, clock, o)
      else
        var resetAt := (if Live(c) == [] then now else Live(c)[0]) + o.interval;
        Flow(c.(timer := Some(now + Max(0.0, Min(resetAt - now, MAX_TIMER_DELAY)))), tick, [], [])
  }

  function Drain(r: Record, now: real, tick: nat, clock: Clock, o: Options): (f: Flow)
    requires r.head <= |r.timestamps|
    decreases |r.waiters|, if Admits(r, now, o) then 0 else 3
  {
    var p := Prune(r, now, o);
    if Cooling(p, now) then Schedule(p, tick, clock, o)
    else
      var c := p.(cooldownUntil := None);
      var k := Room(c, o);
      var f := Schedule(AdmitFirst(c, k, now), tick, clock, o);
      Flow(f.record, f.tick, c.waiters[..k] + f.served, Repeat(now, k) + f.times)
  }

  /** Pruning twice at the same instant skips nothing more, so a queue with room is drained at once. */
  lemma PruneAgain(r: Record, now: real, o: Options)
    requires Pruned(r, now, o)
    ensures ActiveCount(Prune(r, now, o)) == ActiveCount(r) && Prune(r, now, o).waiters == r.waiters
  {
  }

  // ---------- The invariant of one record ----------

  ghost predicate Sorted(h: seq<real>) {
    forall i, j :: 0 <= i <= j < |h| ==> h[i] <= h[j]
  }

  /** Any two admissions `maxRequests` apart in the history lie at least one interval apart. */
  ghost predicate Spaced(h: seq<real>, o: Options) {
    forall i, j :: 0 <= i && j == i + o.maxRequests && j < |h| ==> h[i] + o.interval <= h[j]
  }

  /** The log still holds every admission that could matter: the history is some expired ones, then the log. */
  ghost predicate Logged(live: seq<real>, h: seq<real>, last: real, o: Options) {
    && |live| <= |h| && h[|h| - |live|..] == live
    && forall i | 0 <= i < |h| - |live| :: h[i] <= last - o.interval
  }

  ghost predicate WindowOk(live: seq<real>, h: seq<real>, last: real, o: Options) {
    && Sorted(h) && (forall i | 0 <= i < |h| :: h[i] <= last)
    && Spaced(h, o) && Logged(live, h, last, o) && |live| <= o.maxRequests
  }

  ghost predicate RecordOk(r: Record, h: seq<real>, last: real, o: Options) {
    r.head <= |r.timestamps| && WindowOk(Live(r), h, last, o)
  }

  /** No later than this instant the head of the queue can be served. */
  ghost function Due(live: seq<real>, cooldownUntil: Option<real>, last: real, o: Options): real {
    var cooled := Max(last, if cooldownUntil.Some? then cooldownUntil.value else last);
    if live == [] then cooled else Max(cooled, live[0] + o.interval)
  }

  /** Somebody waits exactly while a timer is armed, and it is never armed too late. */
  ghost predicate TimerOk(r: Record, last: real, o: Options) {
    && r.head <= |r.timestamps|
    && (r.timer.Some? <==> r.waiters != [])
    && (r.timer.Some? ==> r.timer.value <= Due(Live(r), r.cooldownUntil, last, o))
  }

  function Last(clock: Clock, tick: nat): real {
    clock(if tick == 0 then 0 else tick - 1)
  }

  // ---------- Every step keeps the invariant ----------

  /** Pruning at `now` drops exactly the expired front of the live log. */
  lemma PruneLive(r: Record, now: real, o: Options)
    requires r.head <= |r.timestamps|
    ensures var p := Prune(r, now, o);
            && p.head <= |p.timestamps| && p == r.(timestamps := p.timestamps, head := p.head)
            && |Live(p)| <= |Live(r)| && Live(p) == Live(r)[|Live(r)| - |Live(p)|..]
            && (forall i | 0 <= i < |Live(r)| - |Live(p)| :: Live(r)[i] <= now - o.interval)
            && (Live(p) != [] ==> Live(p)[0] > now - o.interval)
  {
    var h := ExpiredHead(r.timestamps, r.head, now - o.interval);
    assert Live(Prune(r, now, o)) == r.timestamps[h..] == Live(r)[h - r.head..];
  }

  /** Time passing and pruning keep the log complete. */
  lemma WindowLater(live: seq<real>, live': seq<real>, h: seq<real>, last: real, now: real, o: Options)
    requires WindowOk(live, h, last, o) && last <= now && |live'| <= |live| && live' == live[|live| - |live'|..]
    requires forall i | 0 <= i < |live| - |live'| :: live[i] <= now - o.interval
    ensures WindowOk(live', h, now, o)
  {
  }

  /** Nor do they make an armed timer late. */
  lemma DueLater(live: seq<real>, live': seq<real>, cooldownUntil: Option<real>, last: real, now: real, o: Options)
    requires last <= now && |live'| <= |live| && live' == live[|live| - |live'|..]
    requires forall i | 0 <= i < |live| - |live'| :: live[i] <= now - o.interval
    ensures Due(live, cooldownUntil, last, o) <= Due(live', cooldownUntil, now, o)
  {
  }

  lemma PruneOk(r: Record, h: seq<real>, last: real, now: real, o: Options)
    requires RecordOk(r, h, last, o) && last <= now
    ensures RecordOk(Prune(r, now, o), h, now, o)
    ensures TimerOk(r, last, o) ==> TimerOk(Prune(r, now, o), now, o)
  {
    hide Prune, WindowOk, Due, Live;
    PruneLive(r, now, o);
    WindowLater(Live(r), Live(Prune(r, now, o)), h, last, now, o);
    DueLater(Live(r), Live(Prune(r, now, o)), r.cooldownUntil, last, now, o);
  }

  lemma LaterOk(r: Record, h: seq<real>, last: real, now: real, o: Options)
    requires RecordOk(r, h, last, o) && last <= now
    ensures RecordOk(r, h, now, o)
    ensures TimerOk(r, last, o) ==> TimerOk(r, now, o)
  {
  }

  /** Admitting `k` at once within the free part of the window keeps admissions spaced. */
  lemma LogMore(live: seq<real>, h: seq<real>, k: nat, now: real, o: Options)
    requires WindowOk(live, h, now, o) && (k == 0 || |live| + k <= o.maxRequests)
    ensures WindowOk(live + Repeat(now, k), h + Repeat(now, k), now, o)
  {
    SpacedMore(live, h, Repeat(now, k), now, o);
    LoggedMore(live, h, Repeat(now, k), now, o);
    hide Spaced, Logged;
  }

  lemma SpacedMore(live: seq<real>, h: seq<real>, more: seq<real>, now: real, o: Options)
    requires Spaced(h, o) && Logged(live, h, now, o) && (more == [] || |live| + |more| <= o.maxRequests)
    requires forall i | 0 <= i < |more| :: more[i] == now
    ensures Spaced(h + more, o)
  {
  }

  lemma LoggedMore(live: seq<real>, h: seq<real>, more: seq<real>, now: real, o: Options)
    requires Logged(live, h, now, o)
    ensures Logged(live + more, h + more, now, o)
  {
  }

  lemma AdmitOk(r: Record, h: seq<real>, k: nat, now: real, o: Options)
    requires RecordOk(r, h, now, o) && k <= |r.waiters| && (k == 0 || ActiveCount(r) + k <= o.maxRequests)
    ensures RecordOk(AdmitFirst(r, k, now), h + Repeat(now, k), now, o)
  {
    LogMore(Live(r), h, k, now, o);
    assert Live(AdmitFirst(r, k, now)) == Live(r) + Repeat(now, k);
    hide WindowOk;
  }

  /** Every waiter served is logged, the rest keep waiting in order, and nobody waits without a timer in time. */
  ghost predicate FlowOk(f: Flow, r: Record, h: seq<real>, tick: nat, clock: Clock, o: Options) {
    |f.times| == |f.served| && Flows(f, r, h, tick, clock, o)
  }

  ghost predicate Flows(f: Flow, r: Record, h: seq<real>, tick: nat, clock: Clock, o: Options) {
    && tick <= f.tick
    && f.served + f.record.waiters == r.waiters
    && RecordOk(f.record, h + f.times, Last(clock, f.tick), o)
    && TimerOk(f.record, Last(clock, f.tick), o)
  }

  lemma StillOk(r: Record, h: seq<real>, tick: nat, clock: Clock, o: Options)
    requires RecordOk(r, h, Last(clock, tick), o) && TimerOk(r, Last(clock, tick), o)
    ensures FlowOk(Flow(r, tick, [], []), r, h, tick, clock, o)
  {
  }

  lemma {:induction false} ScheduleOk(r: Record, h: seq<real>, tick: nat, clock: Clock, o: Options)
    requires NonDecreasing(clock) && o.Normalized() && RecordOk(r, h, Last(clock, tick), o)
    requires r.timer.Some? ==> TimerOk(r, Last(clock, tick), o)
    ensures FlowOk(Schedule(r, tick, clock, o), r, h, tick, clock, o)
    decreases |r.waiters|, 2
  {
    if r.waiters == [] || r.timer.Some? {
      StillOk(r, h, tick, clock, o);
      hide RecordOk, TimerOk;
    } else {
      var now := clock(tick);
      PruneLive(r, now, o);
      PruneOk(r, h, Last(clock, tick), now, o);
      var p := Prune(r, now, o);
      hide WindowOk, FlowOk, RecordOk, Prune, Due, Arm, Live;
      ArmOk(p, h, now, tick + 1, clock, o);
      FlowFrom(Arm(p, now, tick + 1, clock, o), p, r, h, tick + 1, tick, clock, o);
    }
  }

  lemma {:induction false} ArmOk(r: Record, h: seq<real>, now: real, tick: nat, clock: Clock, o: Options)
    requires NonDecreasing(clock) && o.Normalized() && tick > 0 && now == clock(tick - 1)
    requires RecordOk(r, h, now, o) && Pruned(r, now, o) && r.waiters != [] && r.timer.None?
    ensures FlowOk(Arm(r, now, tick, clock, o), r, h, tick, clock, o)
    decreases |r.waiters|, 1
  {
    var c := r.(cooldownUntil := None);
    assert RecordOk(c, h, now, o);
    hide WindowOk, FlowOk, RecordOk, Prune, Due;
    if Cooling(r, now) {
      InTime(Live(r), r.cooldownUntil, now, o);
      ArmedFlow(r, now + Min(r.cooldownUntil.value - now, MAX_TIMER_DELAY), r, h, tick, clock, o);
    } else if ActiveCount(c) < o.maxRequests {
      PruneAgain(c, now, o);
      DrainOk(c, h, now, tick, clock, o);
      FlowFrom(Drain(c, now, tick, clock, o), c, r, h, tick, tick, clock, o);
    } else {
      InTime(Live(c), None, now, o);
      ArmedFlow(c, now + Max(0.0, Min(Live(c)[0] + o.interval - now, MAX_TIMER_DELAY)), r, h, tick, clock, o);
    }
  }

  /** Neither wait is longer than needed. */
  lemma InTime(live: seq<real>, cooldownUntil: Option<real>, now: real, o: Options)
    ensures cooldownUntil.Some? && cooldownUntil.value > now ==>
              now + Min(cooldownUntil.value - now, MAX_TIMER_DELAY) <= Due(live, cooldownUntil, now, o)
    ensures live != [] ==>
              now + Max(0.0, Min(live[0] + o.interval - now, MAX_TIMER_DELAY)) <= Due(live, cooldownUntil, now, o)
  {
  }

  /** Arming the timer of a record with waiters ends the scheduling. */
  lemma ArmedFlow(p: Record, due: real, r: Record, h: seq<real>, tick: nat, clock: Clock, o: Options)
    requires RecordOk(p, h, Last(clock, tick), o) && p.waiters == r.waiters != []
    requires due <= Due(Live(p), p.cooldownUntil, Last(clock, tick), o)
    ensures FlowOk(Flow(p.(timer := Some(due)), tick, [], []), r, h, tick, clock, o)
  {
  }

  /** A flow from a record with the same queue, reached earlier. */
  lemma FlowFrom(f: Flow, p: Record, r: Record, h: seq<real>, later: nat, tick: nat, clock: Clock, o: Options)
    requires p.waiters == r.waiters && tick <= later && FlowOk(f, p, h, later, clock, o)
    ensures FlowOk(f, r, h, tick, clock, o)
  {
  }

  lemma {:induction false} DrainOk(r: Record, h: seq<real>, now: real, tick: nat, clock: Clock, o: Options)
    requires NonDecreasing(clock) && o.Normalized() && tick > 0 && now == clock(tick - 1)
    requires RecordOk(r, h, now, o) && r.timer.None?
    ensures FlowOk(Drain(r, now, tick, clock, o), r, h, tick, clock, o)
    decreases |r.waiters|, if Admits(r, now, o) then 0 else 3
  {
    var p := Prune(r, now, o);
    PruneLive(r, now, o);
    PruneOk(r, h, now, now, o);
    var c := p.(cooldownUntil := None);
    assert RecordOk(c, h, now, o);
    hide WindowOk, FlowOk, Prune, Logged;
    if Cooling(p, now) {
      ScheduleOk(p, h, tick, clock, o);
      FlowFrom(Schedule(p, tick, clock, o), p, r, h, tick, tick, clock, o);
    } else {
      var k := Room(c, o);
      AdmitOk(c, h, k, now, o);
      ScheduleOk(AdmitFirst(c, k, now), h + Repeat(now, k), tick, clock, o);
      FlowAfter(Schedule(AdmitFirst(c, k, now), tick, clock, o), c, k, now, r, h, tick, clock, o);
    }
  }

  /** Admissions followed by a flow make a flow. */
  lemma FlowAfter(f: Flow, c: Record, k: nat, now: real, r: Record, h: seq<real>, tick: nat, clock: Clock, o: Options)
    requires k <= |c.waiters| && c.waiters == r.waiters
    requires FlowOk(f, AdmitFirst(c, k, now), h + Repeat(now, k), tick, clock, o)
    ensures FlowOk(Flow(f.record, f.tick, c.waiters[..k] + f.served, Repeat(now, k) + f.times), r, h, tick, clock, o)
  {
    assert c.waiters[..k] + f.served + f.record.waiters == c.waiters[..k] + (f.served + f.record.waiters) == c.waiters;
    assert h + Repeat(now, k) + f.times == h + (Repeat(now, k) + f.times);
    hide RecordOk, TimerOk;
  }

  // ---------- The rolling window ----------

  /** Indices of the admissions in the half-open interval that ends at `t`. */
  ghost function InWindow(h: seq<real>, t: real, o: Options): set<nat> {
    set i: nat | i < |h| && t - o.interval < h[i] <= t
  }

  ghost function Range(lo: nat, n: nat): (s: set<nat>)
    ensures |s| == n && forall i: nat :: i in s <==> lo <= i < lo + n
  {
    if n == 0 then {} else Range(lo, n - 1) + {lo + n - 1}
  }

  /** Spacing is what a rolling window means: no interval (t - interval, t] holds more than `maxRequests`. */
  lemma AtMostPerWindow(h: seq<real>, t: real, o: Options)
    requires Sorted(h) && Spaced(h, o)
    ensures |InWindow(h, t, o)| <= o.maxRequests
  {
    var s := InWindow(h, t, o);
    if s != {} {
      var lo := First(s);
      assert lo + o.maxRequests < |h| ==> h[lo] + o.interval <= h[lo + o.maxRequests];
      assert forall i | i in s :: i in Range(lo, o.maxRequests);
      Smaller(s, Range(lo, o.maxRequests));
    }
  }

  ghost function First(s: set<nat>): (i: nat)
    requires s != {}
    ensures i in s && forall j | j in s :: i <= j
  {
    var x :| x in s;
    if s == {x} then x
    else
      var y := First(s - {x});
      assert forall j | j in s :: j == x || j in s - {x};
      if x < y then x else y
  }

  lemma {:induction false} Smaller(a: set<nat>, b: set<nat>)
    requires a <= b
    ensures |a| <= |b|
  {
    assert b == a + (b - a);
  }

  /** The pruned log is the window: it counts the admissions of the interval that ends now. */
  lemma LiveIsWindow(r: Record, h: seq<real>, now: real, o: Options)
    requires RecordOk(r, h, now, o) && Pruned(r, now, o)
    ensures ActiveCount(r) == |InWindow(h, now, o)| <= o.maxRequests
  {
    var live := Live(r);
    var lo := |h| - |live|;
    forall i: nat ensures i in InWindow(h, now, o) <==> i in Range(lo, |live|) {
      if lo <= i < |h| {
        assert h[i] == live[i - lo] && h[lo] == live[0];
      }
    }
    assert InWindow(h, now, o) == Range(lo, |live|);
  }

  /** A timer that fires when it is due, or later, admits the head of the queue. */
  lemma DueServes(r: Record, h: seq<real>, last: real, now: real, tick: nat, clock: Clock, o: Options)
    requires o.Normalized() && RecordOk(r, h, last, o) && last <= now && r.waiters != []
    requires Due(Live(r), r.cooldownUntil, last, o) <= now
    ensures var f := Drain(r, now, tick, clock, o); f.served != [] && f.served[0] == r.waiters[0]
  {
  }

  /** Nobody is served before the cooldown is over, nor before `from`. */
  ghost predicate AfterRest(f: Flow, cooldownUntil: Option<real>, from: real) {
    forall i | 0 <= i < |f.times| :: from <= f.times[i] && (cooldownUntil.Some? ==> cooldownUntil.value <= f.times[i])
  }

  lemma {:induction false} ScheduleRests(r: Record, tick: nat, clock: Clock, o: Options)
    requires NonDecreasing(clock) && r.head <= |r.timestamps|
    ensures AfterRest(Schedule(r, tick, clock, o), r.cooldownUntil, clock(tick))
    decreases |r.waiters|, 2
  {
    if r.waiters != [] && r.timer.None? {
      PruneLive(r, clock(tick), o);
      ArmRests(Prune(r, clock(tick), o), clock(tick), tick + 1, clock, o);
    }
    hide Prune, Arm;
  }

  lemma {:induction false} ArmRests(r: Record, now: real, tick: nat, clock: Clock, o: Options)
    requires NonDecreasing(clock) && Pruned(r, now, o) && r.waiters != [] && now <= clock(tick)
    ensures AfterRest(Arm(r, now, tick, clock, o), r.cooldownUntil, now)
    decreases |r.waiters|, 1
  {
    var c := r.(cooldownUntil := None);
    if !Cooling(r, now) && ActiveCount(c) < o.maxRequests {
      PruneAgain(c, now, o);
      DrainRests(c, now, tick, clock, o);
    }
    hide Prune, Drain, Pruned;
  }

  /** However often scheduling and draining call each other, the cooldown is respected. */
  lemma {:induction false} DrainRests(r: Record, now: real, tick: nat, clock: Clock, o: Options)
    requires NonDecreasing(clock) && r.head <= |r.timestamps| && now <= clock(tick)
    ensures AfterRest(Drain(r, now, tick, clock, o), r.cooldownUntil, now)
    decreases |r.waiters|, if Admits(r, now, o) then 0 else 3
  {
    PruneLive(r, now, o);
    var p := Prune(r, now, o);
    var c := p.(cooldownUntil := None);
    if Cooling(p, now) {
      ScheduleRests(p, tick, clock, o);
    } else {
      ScheduleRests(AdmitFirst(c, Room(c, o), now), tick, clock, o);
    }
    hide Prune, Schedule;
  }
}
