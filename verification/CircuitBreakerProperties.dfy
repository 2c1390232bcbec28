/** What the circuit breaker promises over every reachable state and every run. */
module CircuitBreakerProperties {
  import opened Collections
  import opened InsertionMap
  import opened CircuitBreaker

  /** A record without its two accounting counters. */
  function Core(c: Circuit): Circuit {
    c.(probes := 0, activeRequests := 0)
  }

  /** The only events that touch a record's core: a request on its key, or a settlement of its generation. */
  ghost function NextCore(b: Breaker, e: Event, o: Options, r: Ref): Circuit
    requires Inv(b, o) && r < |b.heap|
  {
    match e
    case Ask(_, key, now) =>
      if key in b.circuits && b.circuits[key] == r then Core(Ripen(b.heap[r], now, o)) else Core(b.heap[r])
    case Settled(t, outcome, now) =>
      if Counts(b, t, r) then Core(NextCircuit(b.heap[r], b.admissions[t].probe, outcome, now, o)) else Core(b.heap[r])
    case _ => Core(b.heap[r])
  }

  /** `t` is an unreleased admission of record `r` in its current generation. */
  ghost predicate Counts(b: Breaker, t: Ticket, r: Ref)
    requires WellFormed(b)
  {
    t in b.admissions && b.admissions[t].record == r && Current(b, b.admissions[t])
  }

  lemma AskCore(b: Breaker, t: Ticket, key: Key, now: real, o: Options, r: Ref)
    requires Inv(b, o) && o.Normalized() && r < |b.heap|
    ensures var b' := Request(b, t, key, now, o).0;
            r < |b'.heap| && Core(b'.heap[r]) == NextCore(b, Ask(t, key, now), o, r)
  {
    AskEffect(b, t, key, now, o);
    hide Inv, Request, Ripen;
    assert SameRecord(b, Request(b, t, key, now, o).0, r) || (key in b.circuits && r == b.circuits[key]);
  }

  lemma SettledCore(b: Breaker, t: Ticket, outcome: Outcome, now: real, o: Options, r: Ref)
    requires Inv(b, o) && o.Normalized() && r < |b.heap| && t in b.admissions
    ensures var b' := Settle(b, t, outcome, now, o);
            r < |b'.heap| && Core(b'.heap[r]) == NextCore(b, Settled(t, outcome, now), o, r)
  {
    hide Inv, Settle, NextCircuit;
    if r == b.admissions[t].record {
      SettledOwn(b, t, outcome, now, o);
    } else {
      SettledOther(b, t, outcome, now, o, r);
    }
  }

  lemma SettledOwn(b: Breaker, t: Ticket, outcome: Outcome, now: real, o: Options)
    requires Inv(b, o) && o.Normalized() && t in b.admissions && b.admissions[t].record < |b.heap|
    ensures var b', r := Settle(b, t, outcome, now, o), b.admissions[t].record;
            r < |b'.heap| && Core(b'.heap[r]) == NextCore(b, Settled(t, outcome, now), o, r)
  {
    hide RecordsOk, AdmissionsOk, LatestLast, CircuitOk, Settle, NextCircuit, NextRecord, SameRecord, Minus1;
    SettleEffect(b, t, outcome, now, o);
  }

  /** A settlement leaves all other records as they are. */
  lemma SettledOther(b: Breaker, t: Ticket, outcome: Outcome, now: real, o: Options, r: Ref)
    requires Inv(b, o) && o.Normalized() && r < |b.heap| && t in b.admissions && r != b.admissions[t].record
    ensures var b' := Settle(b, t, outcome, now, o);
            r < |b'.heap| && Core(b'.heap[r]) == NextCore(b, Settled(t, outcome, now), o, r)
  {
    hide RecordsOk, AdmissionsOk, LatestLast, CircuitOk, Settle, NextCircuit, NextRecord, Minus1;
    SettleEffect(b, t, outcome, now, o);
    assert SameRecord(b, Settle(b, t, outcome, now, o), r);
  }

  lemma StepCore(b: Breaker, e: Event, o: Options, r: Ref)
    requires Inv(b, o) && o.Normalized() && Enabled(b, e) && r < |b.heap|
    ensures var b' := Step(b, e, o);
            r < |b'.heap| && Core(b'.heap[r]) == NextCore(b, e, o, r)
  {
    hide RecordsOk, AdmissionsOk, LatestLast, Request, Settle, FinishAll, NextCircuit;
    match e
    case Ask(t, key, now) => AskCore(b, t, key, now, o, r);
    case Settled(t, outcome, now) =>
      if t in b.admissions { SettledCore(b, t, outcome, now, o, r); } else { SettleUnknown(b, t, outcome, now, o); }
    case Uninstall(i, owned) => FinishAllEffect(b, owned, o);
    case _ =>
  }

  /** What the invariant and the step say about one record. */
  lemma Facts(b: Breaker, e: Event, o: Options, r: Ref)
    requires Inv(b, o) && o.Normalized() && Enabled(b, e) && r < |b.heap|
    ensures r < |Step(b, e, o).heap|
    ensures var c := Step(b, e, o).heap[r]; c == NextCore(b, e, o, r).(probes := c.probes, activeRequests := c.activeRequests)
    ensures CircuitOk(b.heap[r], b.history[r].outcomes, o)
    ensures e.Settled? && Counts(b, e.ticket, r) ==>
              b.heap[r].state != Open && (b.admissions[e.ticket].probe <==> b.heap[r].state == HalfOpen)
  {
    StepCore(b, e, o, r);
    var c := Step(b, e, o).heap[r];
    assert Core(c).(probes := c.probes, activeRequests := c.activeRequests) == c;
    assert RecordOk(b.heap[r], b.history[r], b.admissions, r, o);
    if e.Settled? && Counts(b, e.ticket, r) {
      assert Fenced(b.admissions[e.ticket], b.heap[r]);
    }
    hide Step, WellFormed, RecordsOk, AdmissionsOk, LatestLast;
  }

  /** A closed circuit leaves its state exactly at the counted failure that makes its trailing failures, since
      the last success of its generation, reach the threshold; it then opens, at that instant. */
  lemma ClosedOpensExactly(b: Breaker, e: Event, o: Options, r: Ref)
    requires Inv(b, o) && o.Normalized() && Enabled(b, e) && r < |b.heap| && b.heap[r].state == Closed
    ensures r < |Step(b, e, o).heap|
    ensures var opens := e.Settled? && e.outcome == Failure(true) && Counts(b, e.ticket, r)
                         && TrailingFailures(b.history[r].outcomes) + 1 == o.failureThreshold;
            var c := Step(b, e, o).heap[r];
            c.state == (if opens then Open else Closed) && (opens ==> c.openedAt == e.now)
  {
    Facts(b, e, o, r);
    var c, h := b.heap[r], b.history[r].outcomes;
    if e.Settled? && Counts(b, e.ticket, r) {
      ClosedNext(c, h, e.outcome, e.now, o);
    }
    hide Step, Inv, Counts, Enabled, NextCircuit, TrailingFailures;
  }

  lemma ClosedNext(c: Circuit, outcomes: seq<bool>, outcome: Outcome, now: real, o: Options)
    requires CircuitOk(c, outcomes, o) && c.state == Closed
    ensures var n := NextCircuit(c, false, outcome, now, o);
            && (n.state == if outcome == Failure(true) && TrailingFailures(outcomes) + 1 == o.failureThreshold then Open
                           else Closed)
            && (n.state == Open ==> n.openedAt == now)
  {
  }

  lemma HalfOpenNext(c: Circuit, outcomes: seq<bool>, outcome: Outcome, now: real, o: Options)
    requires CircuitOk(c, outcomes, o) && c.state == HalfOpen
    ensures var n := NextCircuit(c, true, outcome, now, o);
            && (n.state == Open <==> outcome == Failure(true))
            && (n.state == Closed <==> outcome == Success && |outcomes| + 1 == o.successThreshold)
            && (n.state == HalfOpen <==> n.generation == c.generation)
            && (n.state == Closed ==> n.failures == 0 && n.openedAt == 0.0)
            && (n.state == Open ==> n.openedAt == now)
  {
  }

  /** A half-open circuit opens at the first counted failure of its generation, at that instant, closes at the success
      that reaches the threshold, and otherwise stays in its generation. */
  lemma HalfOpenMovesExactly(b: Breaker, e: Event, o: Options, r: Ref)
    requires Inv(b, o) && o.Normalized() && Enabled(b, e) && r < |b.heap| && b.heap[r].state == HalfOpen
    ensures r < |Step(b, e, o).heap|
    ensures var c := Step(b, e, o).heap[r];
            var mine := e.Settled? && Counts(b, e.ticket, r);
            && (c.state == Open <==> mine && e.outcome == Failure(true))
            && (c.state == Closed <==> mine && e.outcome == Success && |b.history[r].outcomes| + 1 == o.successThreshold)
            && (c.state == HalfOpen <==> c.generation == b.heap[r].generation)
            && (c.state == Closed ==> c.failures == 0 && c.openedAt == 0.0)
            && (c.state == Open ==> c.openedAt == e.now)
  {
    Facts(b, e, o, r);
    if e.Settled? && Counts(b, e.ticket, r) {
      HalfOpenNext(b.heap[r], b.history[r].outcomes, e.outcome, e.now, o);
    }
    hide Step, Inv, Counts, Enabled, NextCircuit, TrailingFailures;
  }

  /** An open circuit keeps its opening time and generation until a request on its key arrives after the reset
      timeout; so it is never opened a second time, and the open-to-open branch of a transition is not taken. */
  lemma OpenLeavesExactly(b: Breaker, e: Event, o: Options, r: Ref)
    requires Inv(b, o) && o.Normalized() && Enabled(b, e) && r < |b.heap| && b.heap[r].state == Open
    ensures r < |Step(b, e, o).heap|
    ensures var ripe := e.Ask? && e.key in b.circuits && b.circuits[e.key] == r
                        && e.now - b.heap[r].openedAt >= o.resetTimeout;
            var c := Step(b, e, o).heap[r];
            if ripe then c.state == HalfOpen else Core(c) == Core(b.heap[r])
    ensures forall t | t in b.admissions && b.admissions[t].record == r :: !Current(b, b.admissions[t])
  {
    hide Step, Inv, Enabled, NextCircuit;
    Facts(b, e, o, r);
    NoneCurrent(b, o, r);
  }

  lemma NoneCurrent(b: Breaker, o: Options, r: Ref)
    requires Inv(b, o) && r < |b.heap| && b.heap[r].state == Open
    ensures WellFormed(b)
    ensures forall t | t in b.admissions && b.admissions[t].record == r :: !Current(b, b.admissions[t])
  {
    forall t | t in b.admissions && b.admissions[t].record == r
      ensures !Current(b, b.admissions[t])
    {
      assert Fenced(b.admissions[t], b.heap[r]);
    }
    hide RecordsOk, LatestLast;
  }

  // ---------- An open circuit admits nothing until its reset timeout ----------

  ghost predicate TooEarly(events: seq<Event>, key: Key, until: real) {
    forall i | 0 <= i < |events| && events[i].Ask? && events[i].key == key :: events[i].now < until
  }

  ghost predicate NoNewHolder(b: Breaker, b': Breaker, r: Ref) {
    forall t | t in Holders(b'.admissions, r) :: t in Holders(b.admissions, r)
  }

  lemma {:induction false} FinishAllHolders(b: Breaker, tickets: seq<Ticket>, o: Options, r: Ref)
    requires Inv(b, o)
    ensures NoNewHolder(b, FinishAll(b, tickets, o), r)
    decreases |tickets|
  {
    hide WellFormed, RecordsOk, AdmissionsOk, LatestLast, Finish;
    if tickets != [] {
      FinishInv(b, tickets[0], o);
      FinishAllHolders(Finish(b, tickets[0], o), tickets[1..], o, r);
    }
  }

  lemma OpenStep(b: Breaker, e: Event, o: Options, key: Key)
    requires Inv(b, o) && o.Normalized() && Enabled(b, e) && key in b.circuits
    requires var c := b.heap[b.circuits[key]];
             c.state == Open && (e.Ask? && e.key == key ==> e.now < c.openedAt + o.resetTimeout)
    ensures var r, b' := b.circuits[key], Step(b, e, o);
            && r < |b'.heap| && Core(b'.heap[r]) == Core(b.heap[r]) && NoNewHolder(b, b', r)
  {
    var r := b.circuits[key];
    OpenLeavesExactly(b, e, o, r);
    OpenHolders(b, e, o, key);
    OneKey(b, key, o);
    hide Step, Inv, Enabled, Core, NoNewHolder;
  }

  lemma OneKey(b: Breaker, key: Key, o: Options)
    requires Inv(b, o) && key in b.circuits
    ensures forall k | k in b.circuits && b.circuits[k] == b.circuits[key] :: k == key
  {
  }

  lemma OpenHolders(b: Breaker, e: Event, o: Options, key: Key)
    requires Inv(b, o) && o.Normalized() && Enabled(b, e) && key in b.circuits
    requires var c := b.heap[b.circuits[key]];
             c.state == Open && (e.Ask? && e.key == key ==> e.now < c.openedAt + o.resetTimeout)
    ensures NoNewHolder(b, Step(b, e, o), b.circuits[key])
  {
    var r := b.circuits[key];
    match e
    case Ask(t, k, now) => AskHolders(b, t, k, now, o, key);
    case Settled(t, outcome, now) =>
      if t in b.admissions {
        SettleEffect(b, t, outcome, now, o);
        hide Settle, WellFormed, RecordsOk, AdmissionsOk, LatestLast;
      }
    case Uninstall(i, owned) => FinishAllHolders(b, owned, o, r);
    case _ =>
  }

  lemma AskHolders(b: Breaker, t: Ticket, k: Key, now: real, o: Options, key: Key)
    requires Inv(b, o) && o.Normalized() && key in b.circuits
    requires var c := b.heap[b.circuits[key]]; c.state == Open && (k == key ==> now < c.openedAt + o.resetTimeout)
    ensures NoNewHolder(b, Request(b, t, k, now, o).0, b.circuits[key])
  {
    AskEffect(b, t, k, now, o);
    OneKey(b, key, o);
    hide WellFormed, RecordsOk, AdmissionsOk, LatestLast, Request;
  }

  /** While the record stays in the map, no run of requests made before the timeout admits one of them. */
  lemma {:induction false} OpenAdmitsNothing(b: Breaker, events: seq<Event>, o: Options, key: Key)
    requires Inv(b, o) && o.Normalized() && Allowed(b, events, o) && key in b.circuits
    requires b.heap[b.circuits[key]].state == Open
    requires TooEarly(events, key, b.heap[b.circuits[key]].openedAt + o.resetTimeout)
    ensures var r, b' := b.circuits[key], Run(b, events, o);
            key in b'.circuits && b'.circuits[key] == r ==>
              Core(b'.heap[r]) == Core(b.heap[r]) && NoNewHolder(b, b', r)
    decreases |events|
  {
    if events != [] {
      var b1, r := Step(b, events[0], o), b.circuits[key];
      OpenStep(b, events[0], o, key);
      StepAdvances(b, events[0], o);
      assert Core(b1.heap[r]).state == b1.heap[r].state && Core(b1.heap[r]).openedAt == b1.heap[r].openedAt;
      if key in b1.circuits && b1.circuits[key] == r {
        OpenAdmitsNothing(b1, events[1..], o, key);
      } else {
        RunAdvances(b1, events[1..], o);
      }
    }
  }

  /** From the settlement at `now` that opens a circuit on, no request on its key before now + resetTimeout gains an
      admission of the record while it stays in the map. */
  lemma OpenedAdmitsNothing(b: Breaker, e: Event, events: seq<Event>, o: Options, key: Key)
    requires Inv(b, o) && o.Normalized() && Enabled(b, e) && Allowed(Step(b, e, o), events, o)
    requires e.Settled? && key in b.circuits && b.circuits[key] < |b.heap| && b.heap[b.circuits[key]].state != Open
    requires var r, n := b.circuits[key], Step(b, e, o);
             key in n.circuits && n.circuits[key] == r && r < |n.heap| && n.heap[r].state == Open
    requires TooEarly(events, key, e.now + o.resetTimeout)
    ensures var r, n, b' := b.circuits[key], Step(b, e, o), Run(Step(b, e, o), events, o);
            key in b'.circuits && b'.circuits[key] == r ==>
              r < |b'.heap| && b'.heap[r].state == Open && NoNewHolder(n, b', r)
  {
    var r := b.circuits[key];
    if b.heap[r].state == Closed {
      ClosedOpensExactly(b, e, o, r);
    } else {
      HalfOpenMovesExactly(b, e, o, r);
    }
    OpenAdmitsNothing(Step(b, e, o), events, o, key);
    RunAdvances(Step(b, e, o), events, o);
    CoreState(Run(Step(b, e, o), events, o), Step(b, e, o), r);
    hide Inv, Step, Run, Allowed, TrailingFailures, Counts;
  }

  lemma CoreState(b: Breaker, c: Breaker, r: Ref)
    ensures r < |b.heap| && r < |c.heap| && Core(b.heap[r]) == Core(c.heap[r]) ==> b.heap[r].state == c.heap[r].state
  {
    if r < |b.heap| && r < |c.heap| {
      assert Core(b.heap[r]).state == b.heap[r].state && Core(c.heap[r]).state == c.heap[r].state;
    }
  }

  // ---------- Which requests are admitted, and what an outcome adds ----------

  /** A request is admitted if and only if its key has no circuit, or a closed one, or an open one whose reset timeout
      has passed, or a half-open one with a probe to spare. It is a probe unless the circuit is closed, and belongs to
      the circuit's generation; a rejected request adds no admission. */
  lemma AdmittedExactly(b: Breaker, t: Ticket, key: Key, now: real, o: Options)
    requires Inv(b, o) && o.Normalized() && t !in b.admissions
    ensures var (n, admitted) := Request(b, t, key, now, o);
            && key in n.circuits && n.circuits[key] < |n.heap|
            && (admitted <==>
                  key in b.circuits ==>
                    var c := b.heap[b.circuits[key]];
                    match c.state
                    case Closed => true
                    case Open => c.openedAt + o.resetTimeout <= now
                    case HalfOpen => c.probes < o.halfOpenMaxRequests)
            && (admitted ==>
                  var closed := key in b.circuits ==> b.heap[b.circuits[key]].state == Closed;
                  var c := n.heap[n.circuits[key]];
                  && n.admissions == b.admissions[t := Admission(key, c.generation, !closed, n.circuits[key])]
                  && c.state == if closed then Closed else HalfOpen)
            && (!admitted ==> n.admissions == b.admissions)
  {
    if key in b.circuits {
      assert RecordOk(b.heap[b.circuits[key]], b.history[b.circuits[key]], b.admissions, b.circuits[key], o);
    }
    AskEffect(b, t, key, now, o);
    if key !in b.circuits {
      NewCircuit(b, t, key, now, o);
    }
    hide WellFormed, RecordsOk, AdmissionsOk, LatestLast, Request, Probes, Holders, TrailingFailures;
  }

  /** A key without a circuit gets a closed one, which admits it. */
  lemma NewCircuit(b: Breaker, t: Ticket, key: Key, now: real, o: Options)
    requires Inv(b, o) && o.Normalized() && key !in b.circuits
    ensures var (n, admitted) := Request(b, t, key, now, o);
            admitted && |n.heap| == |b.heap| + 1 && n.heap[|b.heap|] == FRESH_CIRCUIT.(activeRequests := 1)
  {
    EnterKeeps(b, key, o);
    hide WellFormed, RecordsOk, AdmissionsOk, LatestLast, Enter;
  }

  /** The outcomes a record has seen in its generation: a success or a counted failure of a current admission adds one,
      a new generation has seen none, and nothing else adds or takes any. */
  lemma OutcomesExactly(b: Breaker, e: Event, o: Options, r: Ref)
    requires Inv(b, o) && o.Normalized() && Enabled(b, e) && r < |b.heap|
    ensures var n := Step(b, e, o);
            && r < |n.heap| == |n.history|
            && n.history[r].outcomes
               == if n.heap[r].generation != b.heap[r].generation then []
                  else if e.Settled? && Counts(b, e.ticket, r) && e.outcome == Success then b.history[r].outcomes + [true]
                  else if e.Settled? && Counts(b, e.ticket, r) && e.outcome == Failure(true) then
                    b.history[r].outcomes + [false]
                  else b.history[r].outcomes
  {
    hide RecordsOk, AdmissionsOk, LatestLast, Request, Settle, FinishAll, NextCircuit;
    match e
    case Ask(t, key, now) => AskOutcomes(b, t, key, now, o, r);
    case Settled(t, outcome, now) => SettledOutcomes(b, t, outcome, now, o, r);
    case Uninstall(i, owned) => FinishAllEffect(b, owned, o);
    case _ =>
  }

  lemma AskOutcomes(b: Breaker, t: Ticket, key: Key, now: real, o: Options, r: Ref)
    requires Inv(b, o) && o.Normalized() && r < |b.heap|
    ensures var n := Request(b, t, key, now, o).0;
            && r < |n.heap| == |n.history|
            && n.history[r].outcomes
               == if n.heap[r].generation != b.heap[r].generation then [] else b.history[r].outcomes
  {
    hide RecordsOk, AdmissionsOk, Enter, Ripen;
    EnterKeeps(b, key, o);
    hide WellFormed, LatestLast;
    EnteredHistory(b, Enter(b, key, o), key, r);
  }

  lemma EnteredHistory(b: Breaker, e: Breaker, key: Key, r: Ref)
    requires r < |b.heap| == |b.history|
    requires if key in b.circuits then e == b.(latest := e.latest, order := e.order)
             else e.heap == b.heap + [FRESH_CIRCUIT] && e.history == b.history + [History([], true)]
    ensures r < |e.heap| == |e.history| && e.heap[r] == b.heap[r] && e.history[r] == b.history[r]
  {
  }

  lemma SettledOutcomes(b: Breaker, t: Ticket, outcome: Outcome, now: real, o: Options, r: Ref)
    requires Inv(b, o) && o.Normalized() && r < |b.heap|
    ensures var n := Settle(b, t, outcome, now, o);
            && r < |n.heap| == |n.history|
            && n.history[r].outcomes
               == if n.heap[r].generation != b.heap[r].generation then []
                  else if Counts(b, t, r) && outcome == Success then b.history[r].outcomes + [true]
                  else if Counts(b, t, r) && outcome == Failure(true) then b.history[r].outcomes + [false]
                  else b.history[r].outcomes
  {
    CountInv(b, t, outcome, now, o);
    FinishEffect(Count(b, t, outcome, now, o), t, o);
    hide RecordsOk, AdmissionsOk, LatestLast, Finish, NextCircuit;
  }

  // ---------- Accounting ----------

  /** In every reachable state the activity counter is the number of unreleased admissions, a busy circuit in the
      map is never trimmed, probes stay within their limit, and closed or open circuits count none. */
  lemma Accounting(events: seq<Event>, o: Options, max: nat)
    requires o.Normalized() && Inv(EMPTY, o) && Allowed(EMPTY, events, o)
    ensures var b := Run(EMPTY, events, o);
            && (forall r: Ref | r < |b.heap| ::
                  && b.heap[r].activeRequests == |Holders(b.admissions, r)|
                  && b.heap[r].probes <= o.halfOpenMaxRequests
                  && (b.heap[r].state != HalfOpen ==> b.heap[r].probes == 0))
            && forall t | t in b.admissions && b.admissions[t].key in b.circuits
                          && b.circuits[b.admissions[t].key] == b.admissions[t].record ::
                 b.admissions[t].key in Trim(b, max).circuits
  {
    var b := Run(EMPTY, events, o);
    TrimKeeps(b, max);
    forall r: Ref | r < |b.heap|
      ensures b.heap[r].activeRequests == |Holders(b.admissions, r)| && b.heap[r].probes <= o.halfOpenMaxRequests
      ensures b.heap[r].state != HalfOpen ==> b.heap[r].probes == 0
    {
      assert RecordOk(b.heap[r], b.history[r], b.admissions, r, o);
    }
    forall t | t in b.admissions && b.admissions[t].key in b.circuits
               && b.circuits[b.admissions[t].key] == b.admissions[t].record
      ensures b.admissions[t].key in Trim(b, max).circuits
    {
      assert t in Holders(b.admissions, b.admissions[t].record);
    }
  }

  lemma EmptyInv(o: Options)
    ensures Inv(EMPTY, o)
  {
  }

  /** Unreleased probes of the record's current generation. */
  ghost function LiveProbes(b: Breaker, r: Ref): set<Ticket>
    requires r < |b.heap|
  {
    Live(b.admissions, r, b.heap[r].generation)
  }

  ghost function Live(admissions: map<Ticket, Admission>, r: Ref, generation: nat): set<Ticket> {
    set t | t in admissions && admissions[t].record == r && admissions[t].probe && admissions[t].generation == generation
  }

  /** A generation that began with no unreleased probe counts exactly its live probes. */
  lemma CleanGenerationIsExact(b: Breaker, r: Ref, o: Options)
    requires Inv(b, o) && r < |b.heap| && b.history[r].clean
    ensures b.heap[r].probes == |LiveProbes(b, r)|
  {
    assert RecordOk(b.heap[r], b.history[r], b.admissions, r, o);
    assert LiveProbes(b, r) == Probes(b.admissions, r);
  }

  /** Whether a half-open generation may drift: some unreleased probe belongs to an older one. */
  ghost predicate StaleProbe(b: Breaker, r: Ref, t: Ticket)
    requires r < |b.heap|
  {
    t in Probes(b.admissions, r) && b.admissions[t].generation < b.heap[r].generation
  }

  /** With a stale probe, one settlement makes the count too small: it gives back a probe of another generation. */
  lemma StaleProbeDrifts(b: Breaker, r: Ref, t: Ticket, now: real, o: Options)
    requires Inv(b, o) && o.Normalized() && r < |b.heap| && StaleProbe(b, r, t)
    requires b.heap[r].probes == |LiveProbes(b, r)| > 0
    ensures var b' := Settle(b, t, Success, now, o);
            r < |b'.heap| && b'.heap[r].probes < |LiveProbes(b', r)|
  {
    SettleEffect(b, t, Success, now, o);
    var b' := Settle(b, t, Success, now, o);
    assert Probes(b'.admissions, r) == Probes(b.admissions, r) - {t};
    hide Inv, Settle, Probes;
    assert LiveProbes(b', r) == LiveProbes(b, r);
  }

  // ---------- When the probe count is exact ----------

  /** Throughout the current generation of `r` the probes counted are the unreleased ones. */
  ghost predicate ExactThroughout(b: Breaker, r: Ref, o: Options)
    requires Inv(b, o) && o.Normalized()
  {
    forall events | Allowed(b, events, o) :: ExactAfter(Run(b, events, o), r, b)
  }

  ghost predicate ExactAfter(b': Breaker, r: Ref, b: Breaker) {
    r < |b.heap| && r < |b'.heap| && b'.heap[r].generation == b.heap[r].generation ==>
      b'.heap[r].probes == |LiveProbes(b', r)|
  }

  /** A half-open generation keeps an exact probe count in every continuation if and only if it was entered
      with no unreleased probe left over from an older generation. `u` is any request not seen before. */
  lemma ExactIffEnteredClean(b: Breaker, r: Ref, key: Key, u: Ticket, now: real, o: Options)
    requires Inv(b, o) && o.Normalized() && key in b.circuits && b.circuits[key] == r
    requires b.heap[r].state == HalfOpen && b.heap[r].probes == 0
    requires b.history[r] == History([], Probes(b.admissions, r) == {})
    requires forall t | t in Probes(b.admissions, r) :: StaleProbe(b, r, t)
    requires u !in b.admissions && u.installation in b.installed
    ensures ExactThroughout(b, r, o) <==> Probes(b.admissions, r) == {}
  {
    if Probes(b.admissions, r) == {} {
      forall events | Allowed(b, events, o) ensures ExactAfter(Run(b, events, o), r, b) {
        RunAdvances(b, events, o);
        assert NextRecord(b, Run(b, events, o), r);
        if Run(b, events, o).heap[r].generation == b.heap[r].generation {
          CleanGenerationIsExact(Run(b, events, o), r, o);
        }
      }
    } else {
      var t :| t in Probes(b.admissions, r);
      Drift(b, r, key, u, t, now, o);
      var events := [Ask(u, key, now), Settled(t, Success, now)];
      assert !ExactAfter(Run(b, events, o), r, b);
    }
  }

  lemma AskHalfOpen(b: Breaker, r: Ref, key: Key, u: Ticket, now: real, o: Options)
    requires Inv(b, o) && o.Normalized() && key in b.circuits && b.circuits[key] == r
    requires b.heap[r].state == HalfOpen && b.heap[r].probes == 0 && u !in b.admissions
    ensures var b1 := Request(b, u, key, now, o).0;
            && r < |b1.heap| && b1.heap[r].probes == 1 && b1.heap[r].generation == b.heap[r].generation
            && b1.admissions == b.admissions[u := Admission(key, b.heap[r].generation, true, r)]
  {
  }

  lemma Drift(b: Breaker, r: Ref, key: Key, u: Ticket, t: Ticket, now: real, o: Options)
    requires Inv(b, o) && o.Normalized() && key in b.circuits && b.circuits[key] == r
    requires b.heap[r].state == HalfOpen && b.heap[r].probes == 0
    requires forall p | p in Probes(b.admissions, r) :: StaleProbe(b, r, p)
    requires t in Probes(b.admissions, r) && u !in b.admissions && u.installation in b.installed
    ensures var events := [Ask(u, key, now), Settled(t, Success, now)];
            Allowed(b, events, o) && !ExactAfter(Run(b, events, o), r, b)
  {
    var e1, e2 := Ask(u, key, now), Settled(t, Success, now);
    var b1 := Request(b, u, key, now, o).0;
    AskBesideStale(b, r, key, u, t, now, o);
    StaleProbeDrifts(b1, r, t, now, o);
    StaleSettlement(b1, t, Success, now, o, r);
    AskThenSettle(b, u, key, t, now, o);
    hide Inv, Allowed, Run, Request, Settle, LiveProbes, Probes;
  }

  lemma AskThenSettle(b: Breaker, u: Ticket, key: Key, t: Ticket, now: real, o: Options)
    requires Inv(b, o) && o.Normalized() && u !in b.admissions && u.installation in b.installed
    ensures var e1, e2, b1 := Ask(u, key, now), Settled(t, Success, now), Request(b, u, key, now, o).0;
            Inv(b1, o) && Allowed(b, [e1, e2], o) && Run(b, [e1, e2], o) == Settle(b1, t, Success, now, o)
  {
    RequestInv(b, u, key, now, o);
    hide RecordsOk, AdmissionsOk, LatestLast, Request, Settle;
    TwoSteps(b, Ask(u, key, now), Settled(t, Success, now), o);
  }

  lemma AskBesideStale(b: Breaker, r: Ref, key: Key, u: Ticket, t: Ticket, now: real, o: Options)
    requires Inv(b, o) && o.Normalized() && key in b.circuits && b.circuits[key] == r
    requires b.heap[r].state == HalfOpen && b.heap[r].probes == 0
    requires forall p | p in Probes(b.admissions, r) :: StaleProbe(b, r, p)
    requires t in Probes(b.admissions, r) && u !in b.admissions && u.installation in b.installed
    ensures var b1 := Request(b, u, key, now, o).0;
            && Inv(b1, o) && r < |b1.heap| && b1.heap[r].generation == b.heap[r].generation
            && StaleProbe(b1, r, t) && b1.heap[r].probes == |LiveProbes(b1, r)| == 1
            && t in b1.admissions && b1.admissions[t].record == r && !Current(b1, b1.admissions[t])
  {
    AskHalfOpen(b, r, key, u, now, o);
    RequestInv(b, u, key, now, o);
    var b1 := Request(b, u, key, now, o).0;
    assert StaleProbe(b, r, t);
    OnlyLive(b.admissions, u, b1.admissions[u], r);
    hide WellFormed, RecordsOk, AdmissionsOk, LatestLast, Request, Probes;
  }

  /** Beside probes of older generations only, a new probe is the only live one. */
  lemma OnlyLive(admissions: map<Ticket, Admission>, u: Ticket, a: Admission, r: Ref)
    requires u !in admissions && a.record == r && a.probe
    requires forall p | p in Probes(admissions, r) :: admissions[p].generation < a.generation
    ensures Probes(admissions[u := a], r) == Probes(admissions, r) + {u}
    ensures Live(admissions[u := a], r, a.generation) == {u}
  {
  }

  lemma TwoSteps(b: Breaker, e1: Event, e2: Event, o: Options)
    requires Inv(b, o) && o.Normalized() && Enabled(b, e1) && Enabled(Step(b, e1, o), e2)
    ensures Allowed(b, [e1, e2], o) && Run(b, [e1, e2], o) == Step(Step(b, e1, o), e2, o)
  {
    hide WellFormed, RecordsOk, AdmissionsOk, LatestLast, Step;
    var b1 := Step(b, e1, o);
    var b2 := Step(b1, e2, o);
    assert [e1, e2][1..] == [e2] && [e2][1..] == [];
    assert Allowed(b2, [], o) && Run(b2, [], o) == b2;
    assert Allowed(b1, [e2], o) && Run(b1, [e2], o) == b2;
  }

  // ---------- The recency shortcut ----------

  /** Looking a key up with the reordering always done. */
  function EnterAlways(b: Breaker, key: Key, o: Options): Breaker
    requires WellFormed(b)
  {
    if key in b.circuits then
      b.(latest := Some(b.circuits[key]), order := MoveToEnd(b.order, IndexOf(b.order, key)))
    else Enter(b, key, o)
  }

  /** Skipping the reordering for the latest record leaves the map exactly as reordering would. */
  lemma ShortcutIsExact(b: Breaker, key: Key, o: Options)
    requires Inv(b, o)
    ensures Enter(b, key, o) == EnterAlways(b, key, o)
  {
    if key in b.circuits && b.latest == Some(b.circuits[key]) {
      var i := IndexOf(b.order, key);
      assert i == |b.order| - 1;
      assert RemoveAt(b.order, i) + [key] == b.order;
    }
  }
}
