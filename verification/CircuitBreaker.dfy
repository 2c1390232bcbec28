/** The circuit breaker: three states per key, generation fencing, probe and activity accounting. */
module CircuitBreaker {
  import opened Collections
  import opened InsertionMap

  /** Identity of a circuit record: its position in allocation order. */
  type Ref = nat

  datatype CircuitState = Closed | Open | HalfOpen

  datatype Circuit = Circuit(state: CircuitState, failures: nat, successes: nat, openedAt: real,
                             probes: nat, generation: nat, activeRequests: nat)

  datatype Admission = Admission(key: Key, generation: nat, probe: bool, record: Ref)

  datatype Options = Options(failureThreshold: nat, successThreshold: nat, resetTimeout: real,
                             halfOpenMaxRequests: nat, maxCircuits: nat)
  {
    predicate Normalized() {
      failureThreshold >= 1 && successThreshold >= 1 && resetTimeout >= 0.0 &&
      halfOpenMaxRequests >= 1 && maxCircuits >= 1
    }
  }

  /** Bookkeeping of the specification only: the outcomes counted in the record's current generation,
      and whether that generation began with no unreleased probe. */
  datatype History = History(outcomes: seq<bool>, clean: bool)

  /** Everything the installations of one plugin share. `order` is the map's key order, oldest first;
      `admissions` holds the unreleased ones. */
  datatype Breaker = Breaker(heap: seq<Circuit>, history: seq<History>, order: seq<Key>, circuits: map<Key, Ref>,
                             latest: Option<Ref>, admissions: map<Ticket, Admission>, installed: set<nat>)

  datatype Outcome = Success | Failure(counted: bool) | Unclassified

  // ---------- Steps ----------

  const FRESH_CIRCUIT := Circuit(Closed, 0, 0, 0.0, 0, 0, 0)

  const EMPTY := Breaker([], [], [], map[], None, map[], {})

  function Transition(c: Circuit, target: CircuitState, now: real): Circuit {
    if c.state == target then
      if target == Open then
        c.(openedAt := now, successes := 0, probes := 0, generation := c.generation + 1)
      else c
    else
      var moved := c.(state := target, successes := 0, probes := 0, generation := c.generation + 1);
      match target
      case Open => moved.(openedAt := now)
      case Closed => moved.(failures := 0, openedAt := 0.0)
      case HalfOpen => moved
  }

  function Holders(admissions: map<Ticket, Admission>, r: Ref): set<Ticket> {
    set t | t in admissions && admissions[t].record == r
  }

  function Probes(admissions: map<Ticket, Admission>, r: Ref): set<Ticket> {
    set t | t in admissions && admissions[t].record == r && admissions[t].probe
  }

  /** The record at `r` changes; a new generation starts a new history. */
  function Put(b: Breaker, r: Ref, c: Circuit, more: seq<bool>): Breaker
    requires r < |b.heap| == |b.history|
  {
    var h := if c.generation == b.heap[r].generation then b.history[r].(outcomes := b.history[r].outcomes + more)
             else History([], Probes(b.admissions, r) == {});
    b.(heap := b.heap[r := c], history := b.history[r := h])
  }

  // ---------- The circuits map ----------

  /** The map's keys are its order, without repetition, and no two keys share a record. */
  ghost predicate WellFormed(b: Breaker) {
    && |b.heap| == |b.history|
    && Distinct(b.order)
    && (forall k :: k in b.order <==> k in b.circuits)
    && (forall k :: k in b.circuits ==> b.circuits[k] < |b.heap|)
    && (forall k, l :: k in b.circuits && l in b.circuits && b.circuits[k] == b.circuits[l] ==> k == l)
    && (forall t :: t in b.admissions ==> b.admissions[t].record < |b.heap|)
  }

  /** Position of the first key, oldest first, whose circuit is idle. */
  function FirstIdle(b: Breaker, from: nat): (i: nat)
    requires WellFormed(b) && from <= |b.order|
    ensures from <= i <= |b.order|
    ensures i < |b.order| ==> b.heap[b.circuits[b.order[i]]].activeRequests == 0
    ensures forall j | from <= j < i :: b.heap[b.circuits[b.order[j]]].activeRequests != 0
    decreases |b.order| - from
  {
    if from == |b.order| || b.heap[b.circuits[b.order[from]]].activeRequests == 0 then from
    else FirstIdle(b, from + 1)
  }

  function Drop(b: Breaker, i: nat): (d: Breaker)
    requires WellFormed(b) && i < |b.order|
    ensures WellFormed(d)
  {
    RemovedOrder(b.order, i);
    b.(order := RemoveAt(b.order, i), circuits := b.circuits - {b.order[i]})
  }

  /** Removes idle circuits, oldest first, until at most `max` remain or none is idle. */
  function Trim(b: Breaker, max: nat): Breaker
    requires WellFormed(b)
    decreases |b.order|
  {
    var i := FirstIdle(b, 0);
    if |b.order| <= max || i == |b.order| then b else Trim(Drop(b, i), max)
  }

  /** When the latest record is still in the map, its key is the newest one. */
  ghost predicate LatestLast(b: Breaker) {
    forall k :: k in b.circuits && b.latest == Some(b.circuits[k]) ==> |b.order| > 0 && b.order[|b.order| - 1] == k
  }

  lemma MoveKeeps(b: Breaker, i: nat)
    requires WellFormed(b) && i < |b.order|
    ensures WellFormed(b.(order := MoveToEnd(b.order, i)))
  {
  }

  /** Looks a key up, creating its circuit if needed; the key becomes the most recent one.
      The reordering is skipped when the record is already the latest. */
  function Enter(b: Breaker, key: Key, o: Options): Breaker
    requires WellFormed(b)
  {
    if key in b.circuits then
      var r := b.circuits[key];
      b.(latest := Some(r),
         order := if b.latest == Some(r) then b.order else MoveToEnd(b.order, IndexOf(b.order, key)))
    else Create(Trim(b, if o.maxCircuits == 0 then 0 else o.maxCircuits - 1), key)
  }

  /** Deleting a key and setting it again puts it at the end of the map. */
  function MoveToEnd(order: seq<Key>, i: nat): seq<Key>
    requires i < |order|
  {
    RemoveAt(order, i) + [order[i]]
  }

  function Create(b: Breaker, key: Key): Breaker {
    b.(heap := b.heap + [FRESH_CIRCUIT], history := b.history + [History([], true)],
       order := b.order + [key], circuits := b.circuits[key := |b.heap|], latest := Some(|b.heap|))
  }

  lemma CreateKeeps(b: Breaker, key: Key)
    requires WellFormed(b) && key !in b.circuits
    ensures WellFormed(Create(b, key)) && LatestLast(Create(b, key))
  {
  }

  // ---------- Requests and settlements ----------

  /** The request hook: the new state, and whether the request is admitted. */
  function Request(b: Breaker, t: Ticket, key: Key, now: real, o: Options): (Breaker, bool)
    requires WellFormed(b) && LatestLast(b)
  {
    var e := Enter(b, key, o);
    EnterKeeps(b, key, o);
    var r := e.circuits[key];
    var c := e.heap[r];
    var c1 := Ripen(c, now, o);
    var b1 := Put(e, r, c1, []);
    if c1.state == Open || (c1.state == HalfOpen && c1.probes >= o.halfOpenMaxRequests) then (b1, false)
    else (Admit(b1, t, key, r), true)
  }

  /** An open circuit whose reset timeout has passed becomes half-open. */
  function Ripen(c: Circuit, now: real, o: Options): Circuit {
    if c.state == Open && now - c.openedAt >= o.resetTimeout then Transition(c, HalfOpen, now) else c
  }

  function Admit(b: Breaker, t: Ticket, key: Key, r: Ref): Breaker
    requires r < |b.heap|
  {
    var c := b.heap[r];
    var probe := c.state == HalfOpen;
    var c' := c.(probes := if probe then c.probes + 1 else c.probes, activeRequests := c.activeRequests + 1);
    b.(heap := b.heap[r := c'], admissions := b.admissions[t := Admission(key, c.generation, probe, r)])
  }

  predicate Current(b: Breaker, a: Admission)
    requires a.record < |b.heap|
  {
    a.key in b.circuits && b.circuits[a.key] == a.record && b.heap[a.record].generation == a.generation
  }

  /** The record after a counted success. */
  function Succeeded(c: Circuit, probe: bool, now: real, o: Options): Circuit {
    var reset := c.(failures := 0);
    if probe && c.state == HalfOpen then
      var counted := reset.(successes := c.successes + 1);
      if counted.successes >= o.successThreshold then Transition(counted, Closed, now) else counted
    else reset
  }

  /** The record after a counted failure. */
  function Failed(c: Circuit, probe: bool, now: real, o: Options): Circuit {
    if probe && c.state == HalfOpen then Transition(c, Open, now)
    else if c.state == Closed then
      var counted := c.(failures := c.failures + 1);
      if counted.failures >= o.failureThreshold then Transition(counted, Open, now) else counted
    else c
  }

  function NextCircuit(c: Circuit, probe: bool, outcome: Outcome, now: real, o: Options): Circuit {
    match outcome
    case Success => Succeeded(c, probe, now, o)
    case Failure(counted) => if counted then Failed(c, probe, now, o) else c
    case Unclassified => c
  }

  /** What an outcome adds to the history of its generation. */
  function Noted(outcome: Outcome): seq<bool> {
    match outcome
    case Success => [true]
    case Failure(counted) => if counted then [false] else []
    case Unclassified => []
  }

  function Minus1(n: nat): nat {
    if n == 0 then 0 else n - 1
  }

  /** Releases an admission: its probe and its activity are given back whatever its generation. */
  function Release(b: Breaker, t: Ticket): Breaker
    requires WellFormed(b) && t in b.admissions
  {
    var a := b.admissions[t];
    var c := b.heap[a.record];
    var c' := c.(probes := if a.probe then Minus1(c.probes) else c.probes, activeRequests := Minus1(c.activeRequests));
    b.(heap := b.heap[a.record := c'], admissions := b.admissions - {t})
  }

  function Finish(b: Breaker, t: Ticket, o: Options): Breaker
    requires WellFormed(b)
  {
    if t in b.admissions then Trim(Release(b, t), o.maxCircuits) else b
  }

  /** What a settlement counts, before its admission is released. A failure may be classified late: the
      settlement then takes effect at the classification, and not at all once the admission was released. */
  function Count(b: Breaker, t: Ticket, outcome: Outcome, now: real, o: Options): (r: Breaker)
    requires WellFormed(b)
    ensures WellFormed(r)
  {
    if t !in b.admissions || !Current(b, b.admissions[t]) then b
    else
      var a := b.admissions[t];
      Put(b, a.record, NextCircuit(b.heap[a.record], a.probe, outcome, now, o), Noted(outcome))
  }

  function Settle(b: Breaker, t: Ticket, outcome: Outcome, now: real, o: Options): Breaker
    requires WellFormed(b)
  {
    Finish(Count(b, t, outcome, now, o), t, o)
  }

  /** Forgets one circuit while its requests may still be running. */
  function Reset(b: Breaker, key: Key): Breaker
    requires WellFormed(b)
  {
    if key !in b.circuits then b
    else Drop(b, IndexOf(b.order, key)).(latest := if b.latest == Some(b.circuits[key]) then None else b.latest)
  }

  lemma DropKeeps(b: Breaker, i: nat)
    requires WellFormed(b) && i < |b.order|
    ensures var d := Drop(b, i);
            && |d.order| == |b.order| - 1 && d == b.(order := d.order, circuits := d.circuits)
            && (forall k :: k in d.circuits <==> (k in b.circuits && k != b.order[i]))
            && forall k :: k in d.circuits ==> d.circuits[k] == b.circuits[k]
  {
  }

  lemma {:induction false} TrimKeeps(b: Breaker, max: nat)
    requires WellFormed(b)
    ensures var t := Trim(b, max);
            && WellFormed(t)
            && t == b.(order := t.order, circuits := t.circuits)
            && (forall k :: k in t.circuits ==> k in b.circuits && t.circuits[k] == b.circuits[k])
            && (forall k :: k in b.circuits && b.heap[b.circuits[k]].activeRequests > 0 ==> k in t.circuits)
    decreases |b.order|
  {
    var i := FirstIdle(b, 0);
    if |b.order| > max && i < |b.order| {
      DropKeeps(b, i);
      hide WellFormed, Drop, FirstIdle;
      TrimKeeps(Drop(b, i), max);
    }
  }

  /** Every key but `key` has in `e` the record it has in `b`. */
  ghost predicate SameOthers(b: Breaker, e: Breaker, key: Key) {
    forall k | k in e.circuits && k != key :: k in b.circuits && b.circuits[k] == e.circuits[k]
  }

  lemma EnterKeeps(b: Breaker, key: Key, o: Options)
    requires WellFormed(b) && LatestLast(b)
    ensures var e := Enter(b, key, o);
            && WellFormed(e) && LatestLast(e) && key in e.circuits && e.latest == Some(e.circuits[key])
            && e.admissions == b.admissions && e.installed == b.installed
            && (if key in b.circuits then e == b.(latest := e.latest, order := e.order)
                else e.heap == b.heap + [FRESH_CIRCUIT] && e.history == b.history + [History([], true)]
                     && e.circuits[key] == |b.heap|)
            && SameOthers(b, e, key)
  {
    hide WellFormed, LatestLast;
    if key in b.circuits {
      EnterKnown(b, key, o);
    } else {
      EnterNew(b, key, o);
    }
  }

  lemma EnterKnown(b: Breaker, key: Key, o: Options)
    requires WellFormed(b) && LatestLast(b) && key in b.circuits
    ensures var e := Enter(b, key, o);
            && WellFormed(e) && LatestLast(e)
            && e == b.(latest := e.latest, order := e.order) && e.latest == Some(b.circuits[key])
  {
    MoveKeeps(b, IndexOf(b.order, key));
  }

  lemma EnterNew(b: Breaker, key: Key, o: Options)
    requires WellFormed(b) && key !in b.circuits
    ensures var e := Enter(b, key, o);
            && WellFormed(e) && LatestLast(e) && key in e.circuits && e.latest == Some(|b.heap|)
            && e.admissions == b.admissions && e.installed == b.installed
            && e.heap == b.heap + [FRESH_CIRCUIT] && e.history == b.history + [History([], true)]
            && e.circuits[key] == |b.heap|
            && SameOthers(b, e, key)
  {
    hide WellFormed, Trim, LatestLast;
    var max := if o.maxCircuits == 0 then 0 else o.maxCircuits - 1;
    TrimKeeps(b, max);
    CreateKeeps(Trim(b, max), key);
  }

  // ---------- The invariant ----------

  /** Failures at the end of a history, after its last success. */
  function TrailingFailures(outcomes: seq<bool>): nat {
    if outcomes == [] || outcomes[|outcomes| - 1] then 0 else 1 + TrailingFailures(outcomes[..|outcomes| - 1])
  }

  /** A record's counters say what its current generation has seen, and stay below their thresholds. */
  ghost predicate CircuitOk(c: Circuit, outcomes: seq<bool>, o: Options) {
    && c.probes <= o.halfOpenMaxRequests
    && (c.state != HalfOpen ==> c.probes == 0 && c.successes == 0)
    && (c.state == Closed ==> c.failures == TrailingFailures(outcomes) < o.failureThreshold)
    && (c.state == HalfOpen ==>
          c.successes == |outcomes| < o.successThreshold && forall i | 0 <= i < |outcomes| :: outcomes[i])
  }

  /** An admission never outlives its generation's state unnoticed. */
  ghost predicate Fenced(a: Admission, c: Circuit) {
    && a.generation <= c.generation
    && (a.generation == c.generation ==> c.state != Open && (a.probe <==> c.state == HalfOpen))
  }

  /** The probes counted are exactly the unreleased ones, all of the current generation. */
  ghost predicate ProbesExact(c: Circuit, admissions: map<Ticket, Admission>, r: Ref) {
    && c.probes == |Probes(admissions, r)|
    && forall t | t in Probes(admissions, r) :: admissions[t].generation == c.generation
  }

  ghost predicate RecordOk(c: Circuit, h: History, admissions: map<Ticket, Admission>, r: Ref, o: Options) {
    && CircuitOk(c, h.outcomes, o)
    && c.activeRequests == |Holders(admissions, r)|
    && (h.clean ==> ProbesExact(c, admissions, r))
  }

  ghost predicate RecordsOk(b: Breaker, o: Options)
    requires |b.heap| == |b.history|
  {
    forall r: Ref | r < |b.heap| :: RecordOk(b.heap[r], b.history[r], b.admissions, r, o)
  }

  ghost predicate AdmissionsOk(b: Breaker)
    requires WellFormed(b)
  {
    forall t | t in b.admissions ::
      t.installation in b.installed && Fenced(b.admissions[t], b.heap[b.admissions[t].record])
  }

  ghost predicate Inv(b: Breaker, o: Options) {
    WellFormed(b) && LatestLast(b) && RecordsOk(b, o) && AdmissionsOk(b)
  }

  // ---------- Every step keeps the invariant ----------

  lemma DropLatest(b: Breaker, i: nat)
    requires WellFormed(b) && i < |b.order| && LatestLast(b)
    ensures LatestLast(Drop(b, i))
  {
  }

  lemma {:induction false} TrimLatest(b: Breaker, max: nat)
    requires WellFormed(b) && LatestLast(b)
    ensures LatestLast(Trim(b, max))
    decreases |b.order|
  {
    hide WellFormed, LatestLast;
    var i := FirstIdle(b, 0);
    if |b.order| > max && i < |b.order| {
      DropLatest(b, i);
      TrimLatest(Drop(b, i), max);
    }
  }

  lemma TrimInv(b: Breaker, max: nat, o: Options)
    requires Inv(b, o)
    ensures Inv(Trim(b, max), o)
  {
    TrimKeeps(b, max);
    TrimLatest(b, max);
  }

  /** One record changes within its generation, or starts the next one with no probe. */
  lemma PutInv(b: Breaker, r: Ref, c: Circuit, more: seq<bool>, o: Options)
    requires Inv(b, o) && r < |b.heap|
    requires c.activeRequests == b.heap[r].activeRequests
    requires var was := b.heap[r];
             if c.generation == was.generation then c.state == was.state && c.probes == was.probes
             else c.generation == was.generation + 1 && c.probes == 0
    requires CircuitOk(c, Put(b, r, c, more).history[r].outcomes, o)
    ensures Inv(Put(b, r, c, more), o)
  {
  }

  lemma ReleaseInv(b: Breaker, t: Ticket, o: Options)
    requires Inv(b, o) && t in b.admissions
    ensures Inv(Release(b, t), o)
    // no counter is ever clamped by Math.max(0, ...)
    ensures b.heap[b.admissions[t].record].activeRequests > 0
    ensures b.history[b.admissions[t].record].clean && b.admissions[t].probe ==> b.heap[b.admissions[t].record].probes > 0
  {
    var p, a := Release(b, t), b.admissions[t];
    var r := a.record;
    assert RecordOk(b.heap[r], b.history[r], b.admissions, r, o);
    assert t in Holders(b.admissions, r) && (a.probe ==> t in Probes(b.admissions, r));
    forall q: Ref | q < |p.heap| ensures RecordOk(p.heap[q], p.history[q], p.admissions, q, o) {
      assert RecordOk(b.heap[q], b.history[q], b.admissions, q, o);
      WithoutTicket(b.admissions, t, q);
    }
    assert AdmissionsOk(p) by {
      forall u | u in p.admissions ensures Fenced(p.admissions[u], p.heap[p.admissions[u].record]) {
        assert Fenced(b.admissions[u], b.heap[b.admissions[u].record]);
      }
    }
  }

  lemma WithoutTicket(admissions: map<Ticket, Admission>, t: Ticket, q: Ref)
    requires t in admissions
    ensures Probes(admissions - {t}, q) == Probes(admissions, q) - {t}
    ensures |Holders(admissions - {t}, q)| == |Holders(admissions, q)| - (if admissions[t].record == q then 1 else 0)
    ensures |Probes(admissions - {t}, q)|
         == |Probes(admissions, q)| - (if admissions[t].record == q && admissions[t].probe then 1 else 0)
  {
    var less := admissions - {t};
    assert Holders(less, q) == Holders(admissions, q) - {t};
    assert Probes(less, q) == Probes(admissions, q) - {t};
    assert t in Holders(admissions, q) <==> admissions[t].record == q;
    assert t in Probes(admissions, q) <==> (admissions[t].record == q && admissions[t].probe);
    hide Holders, Probes;
  }

  lemma WithTicket(admissions: map<Ticket, Admission>, t: Ticket, a: Admission, q: Ref)
    requires t !in admissions
    ensures |Holders(admissions[t := a], q)| == |Holders(admissions, q)| + (if a.record == q then 1 else 0)
    ensures |Probes(admissions[t := a], q)| == |Probes(admissions, q)| + (if a.record == q && a.probe then 1 else 0)
  {
    var more := admissions[t := a];
    if a.record == q {
      assert Holders(more, q) == Holders(admissions, q) + {t};
    } else {
      assert Holders(more, q) == Holders(admissions, q);
    }
    if a.record == q && a.probe {
      assert Probes(more, q) == Probes(admissions, q) + {t};
    } else {
      assert Probes(more, q) == Probes(admissions, q);
    }
  }

  /** Admission of `t` on record `r`, which is not open and has a free probe if it needs one. */
  lemma AdmitInv(b: Breaker, t: Ticket, key: Key, r: Ref, o: Options)
    requires Inv(b, o) && r < |b.heap| && t !in b.admissions && t.installation in b.installed
    requires b.heap[r].state != Open
    requires b.heap[r].state == HalfOpen ==> b.heap[r].probes < o.halfOpenMaxRequests
    ensures Inv(Admit(b, t, key, r), o)
  {
    var p, a := Admit(b, t, key, r), Admit(b, t, key, r).admissions[t];
    forall q: Ref | q < |p.heap| ensures RecordOk(p.heap[q], p.history[q], p.admissions, q, o) {
      assert RecordOk(b.heap[q], b.history[q], b.admissions, q, o);
      WithTicket(b.admissions, t, a, q);
    }
    assert AdmissionsOk(p) by {
      forall u | u in p.admissions ensures Fenced(p.admissions[u], p.heap[p.admissions[u].record]) {
        assert u != t ==> Fenced(b.admissions[u], b.heap[b.admissions[u].record]);
      }
    }
  }

  lemma EnterInv(b: Breaker, key: Key, o: Options)
    requires Inv(b, o) && o.Normalized()
    ensures Inv(Enter(b, key, o), o)
  {
    EnterKeeps(b, key, o);
    var e := Enter(b, key, o);
    forall q: Ref | q < |e.heap| ensures RecordOk(e.heap[q], e.history[q], e.admissions, q, o) {
      if q < |b.heap| {
        assert RecordOk(b.heap[q], b.history[q], b.admissions, q, o);
      } else {
        assert Holders(b.admissions, q) == {} && Probes(b.admissions, q) == {};
      }
    }
    assert AdmissionsOk(e) by {
      forall u | u in e.admissions ensures Fenced(e.admissions[u], e.heap[e.admissions[u].record]) {
        assert Fenced(b.admissions[u], b.heap[b.admissions[u].record]);
      }
    }
  }

  lemma RipenInv(b: Breaker, r: Ref, now: real, o: Options)
    requires Inv(b, o) && o.Normalized() && r < |b.heap|
    ensures Inv(Put(b, r, Ripen(b.heap[r], now, o), []), o)
  {
    assert RecordOk(b.heap[r], b.history[r], b.admissions, r, o);
    assert b.history[r].outcomes + [] == b.history[r].outcomes;
    PutInv(b, r, Ripen(b.heap[r], now, o), [], o);
  }

  lemma RequestInv(b: Breaker, t: Ticket, key: Key, now: real, o: Options)
    requires Inv(b, o) && o.Normalized() && t !in b.admissions && t.installation in b.installed
    ensures Inv(Request(b, t, key, now, o).0, o)
  {
    var e := Enter(b, key, o);
    EnterKeeps(b, key, o);
    EnterInv(b, key, o);
    var r := e.circuits[key];
    RipenInv(e, r, now, o);
    var b1 := Put(e, r, Ripen(e.heap[r], now, o), []);
    hide Enter, WellFormed, LatestLast, RecordsOk, AdmissionsOk, Ripen;
    if Request(b, t, key, now, o).1 {
      AdmitInv(b1, t, key, r, o);
    }
  }

  lemma CountInv(b: Breaker, t: Ticket, outcome: Outcome, now: real, o: Options)
    requires Inv(b, o) && o.Normalized()
    ensures Inv(Count(b, t, outcome, now, o), o)
    ensures Count(b, t, outcome, now, o).admissions == b.admissions
  {
    if t in b.admissions && Current(b, b.admissions[t]) {
      var a := b.admissions[t];
      var r := a.record;
      var c, h := b.heap[r], b.history[r];
      assert Fenced(a, c) && RecordOk(c, h, b.admissions, r, o);
      assert (h.outcomes + [true])[|h.outcomes|] == true && (h.outcomes + [false])[..|h.outcomes|] == h.outcomes;
      assert h.outcomes + [] == h.outcomes;
      hide WellFormed, RecordsOk, AdmissionsOk, LatestLast;
      PutInv(b, r, NextCircuit(c, a.probe, outcome, now, o), Noted(outcome), o);
    }
  }

  lemma FinishInv(b: Breaker, t: Ticket, o: Options)
    requires Inv(b, o)
    ensures Inv(Finish(b, t, o), o) && Finish(b, t, o).admissions == b.admissions - {t}
  {
    if t in b.admissions {
      ReleaseInv(b, t, o);
      TrimInv(Release(b, t), o.maxCircuits, o);
      TrimKeeps(Release(b, t), o.maxCircuits);
    }
  }

  // ---------- Events and runs ----------

  datatype Event =
    | Install(installation: nat)
    | Ask(ticket: Ticket, key: Key, now: real)
    | Settled(ticket: Ticket, outcome: Outcome, now: real)
    | ResetKey(key: Key)
    | ResetAll
    | Uninstall(installation: nat, owned: seq<Ticket>)

  ghost predicate Owned(b: Breaker, installation: nat, owned: seq<Ticket>) {
    forall t :: t in owned <==> t in b.admissions && t.installation == installation
  }

  ghost predicate Enabled(b: Breaker, e: Event) {
    match e
    case Install(i) => i !in b.installed
    case Ask(t, _, _) => t !in b.admissions && t.installation in b.installed
    case Uninstall(i, owned) => i in b.installed && Owned(b, i, owned)
    case _ => true
  }

  function FinishAll(b: Breaker, tickets: seq<Ticket>, o: Options): (r: Breaker)
    requires Inv(b, o)
    ensures Inv(r, o)
    ensures forall t :: t in r.admissions <==> t in b.admissions && t !in tickets
    ensures r.installed == b.installed
    decreases |tickets|
  {
    if tickets == [] then b
    else
      FinishInv(b, tickets[0], o);
      FinishInstalled(b, tickets[0], o);
      FinishAll(Finish(b, tickets[0], o), tickets[1..], o)
  }

  lemma FinishInstalled(b: Breaker, t: Ticket, o: Options)
    requires Inv(b, o)
    ensures Finish(b, t, o).installed == b.installed
  {
    if t in b.admissions {
      ReleaseInv(b, t, o);
      TrimKeeps(Release(b, t), o.maxCircuits);
    }
  }

  /** Removal of an installation releases its admissions; the last one also forgets every circuit. */
  function Remove(b: Breaker, installation: nat, owned: seq<Ticket>, o: Options): Breaker
    requires Inv(b, o)
  {
    var f := FinishAll(b, owned, o);
    var left := f.(installed := f.installed - {installation});
    if left.installed == {} then Clear(left) else left
  }

  function Clear(b: Breaker): Breaker {
    b.(order := [], circuits := map[], latest := None)
  }

  function Step(b: Breaker, e: Event, o: Options): (r: Breaker)
    requires Inv(b, o) && o.Normalized() && Enabled(b, e)
    ensures Inv(r, o)
  {
    match e
    case Install(i) => InstallInv(b, i, o); b.(installed := b.installed + {i})
    case Ask(t, key, now) => RequestInv(b, t, key, now, o); Request(b, t, key, now, o).0
    case Settled(t, outcome, now) => SettleInv(b, t, outcome, now, o); Settle(b, t, outcome, now, o)
    case ResetKey(key) => ResetInv(b, key, o); Reset(b, key)
    case ResetAll => ClearInv(b, o); Clear(b)
    case Uninstall(i, owned) => RemoveInv(b, i, owned, o); Remove(b, i, owned, o)
  }

  lemma InstallInv(b: Breaker, i: nat, o: Options)
    requires Inv(b, o)
    ensures Inv(b.(installed := b.installed + {i}), o)
  {
  }

  lemma SettleInv(b: Breaker, t: Ticket, outcome: Outcome, now: real, o: Options)
    requires Inv(b, o) && o.Normalized()
    ensures Inv(Settle(b, t, outcome, now, o), o)
  {
    CountInv(b, t, outcome, now, o);
    FinishInv(Count(b, t, outcome, now, o), t, o);
  }

  lemma ClearInv(b: Breaker, o: Options)
    requires Inv(b, o)
    ensures Inv(Clear(b), o)
  {
  }

  lemma ResetInv(b: Breaker, key: Key, o: Options)
    requires Inv(b, o)
    ensures Inv(Reset(b, key), o)
  {
    if key in b.circuits {
      DropLatest(b, IndexOf(b.order, key));
    }
  }

  lemma RemoveInv(b: Breaker, i: nat, owned: seq<Ticket>, o: Options)
    requires Inv(b, o) && Owned(b, i, owned)
    ensures Inv(Remove(b, i, owned, o), o)
  {
    var f := FinishAll(b, owned, o);
    assert Inv(f.(installed := f.installed - {i}), o);
  }

  ghost predicate Allowed(b: Breaker, events: seq<Event>, o: Options)
    requires Inv(b, o) && o.Normalized()
    decreases |events|
  {
    events == [] || (Enabled(b, events[0]) && Allowed(Step(b, events[0], o), events[1..], o))
  }

  function Run(b: Breaker, events: seq<Event>, o: Options): (r: Breaker)
    requires Inv(b, o) && o.Normalized() && Allowed(b, events, o)
    ensures Inv(r, o)
    decreases |events|
  {
    if events == [] then b else Run(Step(b, events[0], o), events[1..], o)
  }

  // ---------- What one step changes ----------

  ghost predicate SameRecord(b: Breaker, b': Breaker, q: Ref) {
    && q < |b.heap| && q < |b.history| && q < |b'.heap| && q < |b'.history|
    && b'.heap[q] == b.heap[q] && b'.history[q] == b.history[q]
  }

  /** Generations never decrease, and a generation's clean flag is fixed at its start. */
  ghost predicate NextRecord(b: Breaker, b': Breaker, q: Ref) {
    && q < |b.heap| && q < |b.history| && q < |b'.heap| && q < |b'.history|
    && b.heap[q].generation <= b'.heap[q].generation
    && (b'.heap[q].generation == b.heap[q].generation ==> b'.history[q].clean == b.history[q].clean)
  }

  /** A request touches only the record of its key. */
  lemma AskEffect(b: Breaker, t: Ticket, key: Key, now: real, o: Options)
    requires Inv(b, o) && o.Normalized()
    ensures var (b', admitted) := Request(b, t, key, now, o);
            var r := if key in b.circuits then b.circuits[key] else |b.heap|;
            && r < |b'.heap| == |b'.history| && |b.heap| <= |b'.heap|
            && (forall q: Ref | q < |b.heap| && q != r :: SameRecord(b, b', q))
            && (key in b.circuits ==>
                  && NextRecord(b, b', r)
                  && b'.heap[r] == Ripen(b.heap[r], now, o).(probes := b'.heap[r].probes,
                                                             activeRequests := b'.heap[r].activeRequests)
                  && (admitted <==> var c := Ripen(b.heap[r], now, o);
                                    c.state == Closed || (c.state == HalfOpen && c.probes < o.halfOpenMaxRequests)))
            && (admitted ==> b'.heap[r].state != Open)
            && (admitted ==>
                  b'.admissions == b.admissions[t := Admission(key, b'.heap[r].generation, b'.heap[r].state == HalfOpen, r)])
            && (admitted && key in b.circuits && b.heap[r].state == HalfOpen ==> b'.heap[r].probes == b.heap[r].probes + 1)
            && (!admitted ==> b'.admissions == b.admissions)
            && (forall k | k in b'.circuits && k != key :: k in b.circuits && b.circuits[k] == b'.circuits[k])
            && key in b'.circuits && b'.circuits[key] == r
  {
    EnterKeeps(b, key, o);
    hide WellFormed, RecordsOk, AdmissionsOk, LatestLast, Enter;
  }

  /** A settlement touches only the record of its admission, and counts there only when current. */
  lemma SettleEffect(b: Breaker, t: Ticket, outcome: Outcome, now: real, o: Options)
    requires Inv(b, o) && o.Normalized() && t in b.admissions
    ensures var b', a := Settle(b, t, outcome, now, o), b.admissions[t];
            var c := if Current(b, a) then NextCircuit(b.heap[a.record], a.probe, outcome, now, o) else b.heap[a.record];
            && |b'.heap| == |b.heap| == |b'.history|
            && (forall q: Ref | q < |b.heap| && q != a.record :: SameRecord(b, b', q))
            && NextRecord(b, b', a.record)
            && b'.heap[a.record] == c.(probes := if a.probe then Minus1(c.probes) else c.probes,
                                       activeRequests := Minus1(c.activeRequests))
            && b'.admissions == b.admissions - {t}
            && (forall k | k in b'.circuits :: k in b.circuits && b.circuits[k] == b'.circuits[k])
  {
    CountInv(b, t, outcome, now, o);
    CountEffect(b, t, outcome, now, o);
    FinishKnown(Count(b, t, outcome, now, o), t, o);
    hide Inv, Count, Finish, NextCircuit;
  }

  lemma FinishKnown(b: Breaker, t: Ticket, o: Options)
    requires Inv(b, o) && t in b.admissions
    ensures var b', r, probe := Finish(b, t, o), b.admissions[t].record, b.admissions[t].probe;
            && r < |b.heap|
            && b'.heap == b.heap[r := b.heap[r].(probes := if probe then Minus1(b.heap[r].probes) else b.heap[r].probes,
                                                 activeRequests := Minus1(b.heap[r].activeRequests))]
            && b'.history == b.history && b'.admissions == b.admissions - {t}
            && (forall k | k in b'.circuits :: k in b.circuits && b.circuits[k] == b'.circuits[k])
  {
    TrimKeeps(Release(b, t), o.maxCircuits);
    hide RecordsOk, AdmissionsOk, LatestLast, Trim;
  }

  lemma CountEffect(b: Breaker, t: Ticket, outcome: Outcome, now: real, o: Options)
    requires Inv(b, o) && t in b.admissions
    ensures var c, a := Count(b, t, outcome, now, o), b.admissions[t];
            && |c.heap| == |b.heap| == |c.history| && c.circuits == b.circuits && c.admissions == b.admissions
            && (forall q: Ref | q < |b.heap| && q != a.record :: SameRecord(b, c, q))
            && NextRecord(b, c, a.record)
            && c.heap[a.record] == if Current(b, a) then NextCircuit(b.heap[a.record], a.probe, outcome, now, o)
                                   else b.heap[a.record]
  {
    hide LatestLast, RecordsOk, AdmissionsOk;
  }

  lemma FinishEffect(b: Breaker, t: Ticket, o: Options)
    requires Inv(b, o)
    ensures var b' := Finish(b, t, o);
            && b'.history == b.history && |b'.heap| == |b.heap|
            && (forall q: Ref | q < |b.heap| ::
                  b'.heap[q] == b.heap[q].(probes := b'.heap[q].probes, activeRequests := b'.heap[q].activeRequests))
            && (forall k | k in b'.circuits :: k in b.circuits && b.circuits[k] == b'.circuits[k])
  {
    if t in b.admissions {
      TrimKeeps(Release(b, t), o.maxCircuits);
    }
    hide WellFormed, RecordsOk, AdmissionsOk, LatestLast, Trim;
  }

  /** A removal releases admissions; it counts nothing. */
  lemma {:induction false} FinishAllEffect(b: Breaker, tickets: seq<Ticket>, o: Options)
    requires Inv(b, o)
    ensures var b' := FinishAll(b, tickets, o);
            && b'.history == b.history && |b'.heap| == |b.heap|
            && (forall q: Ref | q < |b.heap| ::
                  b'.heap[q] == b.heap[q].(probes := b'.heap[q].probes, activeRequests := b'.heap[q].activeRequests))
            && (forall k | k in b'.circuits :: k in b.circuits && b.circuits[k] == b'.circuits[k])
    decreases |tickets|
  {
    hide WellFormed, RecordsOk, AdmissionsOk, LatestLast, Finish;
    if tickets != [] {
      FinishEffect(b, tickets[0], o);
      FinishInv(b, tickets[0], o);
      FinishAllEffect(Finish(b, tickets[0], o), tickets[1..], o);
    }
  }

  // ---------- The fence ----------

  /** A settlement of an older generation, or of a circuit no longer in the map, counts for nothing. */
  lemma StaleSettlement(b: Breaker, t: Ticket, outcome: Outcome, now: real, o: Options, r: Ref)
    requires Inv(b, o) && o.Normalized() && r < |b.heap|
    requires t in b.admissions && !Current(b, b.admissions[t])
    ensures var b' := Settle(b, t, outcome, now, o);
            && |b'.heap| == |b.heap|
            && b'.heap[r] == b.heap[r].(probes := b'.heap[r].probes, activeRequests := b'.heap[r].activeRequests)
  {
    SettleEffect(b, t, outcome, now, o);
    hide Inv, Settle;
    assert r != b.admissions[t].record ==> SameRecord(b, Settle(b, t, outcome, now, o), r);
  }

  /** Once stale, an admission stays stale, whatever happens while its failure is being classified. */
  lemma {:induction false} StaleForever(b: Breaker, events: seq<Event>, o: Options, a: Admission)
    requires Inv(b, o) && o.Normalized() && Allowed(b, events, o)
    requires a.record < |b.heap| && !Current(b, a) && a.generation <= b.heap[a.record].generation
    ensures a.record < |Run(b, events, o).heap| && !Current(Run(b, events, o), a)
  {
    RunAdvances(b, events, o);
    hide Inv, Run;
    assert NextRecord(b, Run(b, events, o), a.record);
  }

  /** Records only advance, and a key never gets back a record it has lost. */
  ghost predicate Advanced(b: Breaker, b': Breaker) {
    && (forall r: Ref | r < |b.heap| :: NextRecord(b, b', r))
    && (forall k | k in b'.circuits && b'.circuits[k] < |b.heap| :: k in b.circuits && b.circuits[k] == b'.circuits[k])
  }

  lemma AdvancedTransitive(b0: Breaker, b1: Breaker, b2: Breaker)
    requires Advanced(b0, b1) && Advanced(b1, b2) && |b0.heap| <= |b1.heap|
    ensures Advanced(b0, b2)
  {
    forall r: Ref | r < |b0.heap| ensures NextRecord(b0, b2, r) {
      assert NextRecord(b0, b1, r) && NextRecord(b1, b2, r);
    }
  }

  lemma AskAdvances(b: Breaker, t: Ticket, key: Key, now: real, o: Options)
    requires Inv(b, o) && o.Normalized()
    ensures var b' := Request(b, t, key, now, o).0; Advanced(b, b') && |b.heap| <= |b'.heap|
  {
    AskEffect(b, t, key, now, o);
    hide Inv, Request;
    var b' := Request(b, t, key, now, o).0;
    forall q: Ref | q < |b.heap| ensures NextRecord(b, b', q) {
      assert SameRecord(b, b', q) || NextRecord(b, b', q);
    }
  }

  lemma SettleAdvances(b: Breaker, t: Ticket, outcome: Outcome, now: real, o: Options)
    requires Inv(b, o) && o.Normalized() && t in b.admissions
    ensures var b' := Settle(b, t, outcome, now, o); Advanced(b, b') && |b.heap| <= |b'.heap|
  {
    SettleEffect(b, t, outcome, now, o);
    hide Inv, Settle;
    var b' := Settle(b, t, outcome, now, o);
    forall q: Ref | q < |b.heap| ensures NextRecord(b, b', q) {
      assert SameRecord(b, b', q) || NextRecord(b, b', q);
    }
  }

  lemma SettleUnknown(b: Breaker, t: Ticket, outcome: Outcome, now: real, o: Options)
    requires Inv(b, o) && t !in b.admissions
    ensures Settle(b, t, outcome, now, o) == b
  {
  }

  lemma StepAdvances(b: Breaker, e: Event, o: Options)
    requires Inv(b, o) && o.Normalized() && Enabled(b, e)
    ensures Advanced(b, Step(b, e, o)) && |b.heap| <= |Step(b, e, o).heap|
  {
    hide RecordsOk, AdmissionsOk, LatestLast, Request, Settle, FinishAll;
    match e
    case Ask(t, key, now) => AskAdvances(b, t, key, now, o);
    case Settled(t, outcome, now) =>
      if t in b.admissions { SettleAdvances(b, t, outcome, now, o); } else { SettleUnknown(b, t, outcome, now, o); }
    case Uninstall(i, owned) => FinishAllEffect(b, owned, o);
    case _ =>
  }

  lemma {:induction false} RunAdvances(b: Breaker, events: seq<Event>, o: Options)
    requires Inv(b, o) && o.Normalized() && Allowed(b, events, o)
    ensures Advanced(b, Run(b, events, o))
    decreases |events|
  {
    hide WellFormed, RecordsOk, AdmissionsOk, LatestLast, Step;
    if events == [] {
      assert |b.heap| == |b.history| by { InvShape(b, o); }
    } else {
      StepAdvances(b, events[0], o);
      RunAdvances(Step(b, events[0], o), events[1..], o);
      AdvancedTransitive(b, Step(b, events[0], o), Run(Step(b, events[0], o), events[1..], o));
    }
  }

  lemma InvShape(b: Breaker, o: Options)
    requires Inv(b, o)
    ensures |b.heap| == |b.history|
  {
  }
}
