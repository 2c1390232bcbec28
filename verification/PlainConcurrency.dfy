/** The concurrency limiter without records, counters and eviction: who holds a permit of a key, and who waits for one.
    The real limiter gives the same answers and the same permits in every run. */
module PlainConcurrency {
  import opened Collections
  import opened InsertionMap
  import opened Fifo
  import opened Concurrency

  datatype Plain = Plain(held: map<Ticket, Key>, queues: map<Key, seq<Ticket>>)

  const NOBODY := Plain(map[], map[])

  /** A free permit is given at once; otherwise a request waits, unless it is refused or the queue is full. */
  ghost function AskPlain(p: Plain, t: Ticket, key: Key, refused: bool, o: Options): (Plain, Answer) {
    var queue := At(p.queues, key);
    if |Holders(p.held, key)| < o.maxConcurrent then (p.(held := p.held[t := key]), Admitted)
    else if !refused && |queue| < o.maxQueue then (p.(queues := p.queues[key := queue + [t]]), Queued)
    else (p, Rejected)
  }

  /** A permit goes to the first in the queue. */
  function SettlePlain(p: Plain, t: Ticket): Plain {
    if t !in p.held then p
    else
      var key, left := p.held[t], p.held - {t};
      var queue := At(p.queues, key);
      if queue == [] then p.(held := left) else Plain(left[queue[0] := key], p.queues[key := queue[1..]])
  }

  function LeavePlain(p: Plain, gone: set<Ticket>): Plain {
    p.(queues := map k | k in p.queues :: Without(p.queues[k], gone))
  }

  function SettleAllPlain(p: Plain, tickets: seq<Ticket>): Plain
    decreases |tickets|
  {
    if tickets == [] then p else SettleAllPlain(SettlePlain(p, tickets[0]), tickets[1..])
  }

  ghost function StepPlain(p: Plain, e: Event, o: Options): Plain {
    match e
    case Install(_) => p
    case Ask(t, key, refused) => AskPlain(p, t, key, refused, o).0
    case Leave(gone) => LeavePlain(p, gone)
    case Settled(t) => SettlePlain(p, t)
    case Uninstall(i, owned) =>
      SettleAllPlain(LeavePlain(p, set k, t | k in p.queues && t in p.queues[k] && t.installation == i :: t), owned)
  }

  ghost function RunPlain(p: Plain, events: seq<Event>, o: Options): Plain
    decreases |events|
  {
    if events == [] then p else RunPlain(StepPlain(p, events[0], o), events[1..], o)
  }

  ghost predicate Same(s: Limiter, p: Plain) {
    s.held == p.held && SameQueues(s.records, p)
  }

  ghost predicate SameQueues(m: Map<Record>, p: Plain) {
    forall k :: Waiting(m, k) == At(p.queues, k)
  }

  // ---------- One step ----------

  lemma LookupQueues(m: Map<Record>, key: Key, p: Plain, o: Options)
    requires Valid(m) && o.Normalized() && SameQueues(m, p)
    ensures SameQueues(Lookup(m, key, o), p)
  {
    LookupKeeps(m, key, o);
    hide Valid, Lookup;
  }

  /** The real limiter answers as the plain one, and moves to the same permits and queues. */
  lemma AnswersExactly(s: Limiter, p: Plain, t: Ticket, key: Key, refused: bool, o: Options)
    requires Inv(s, o) && o.Normalized() && Enabled(s, Ask(t, key, refused)) && Same(s, p)
    ensures var (n, answer) := Request(s, t, key, refused, o);
            && answer == AskPlain(p, t, key, refused, o).1
            && Same(n, AskPlain(p, t, key, refused, o).0)
            && n.history == if answer == Queued then Arrive(s.history, t, key) else s.history
  {
    hide Valid, HeldOk, PermitsAll, FifoAll, Lookup, Answering, AskPlain;
    LookupInv(s, key, o);
    LookupKeeps(s.records, key, o);
    LookupQueues(s.records, key, p, o);
    AnsweringSame(s.(records := Lookup(s.records, key, o)), p, t, key, refused, o);
  }

  lemma AnsweringSame(s: Limiter, p: Plain, t: Ticket, key: Key, refused: bool, o: Options)
    requires Inv(s, o) && Same(s, p) && key in s.records.at
    ensures var (n, answer) := Answering(s, t, key, refused, o);
            && answer == AskPlain(p, t, key, refused, o).1
            && Same(n, AskPlain(p, t, key, refused, o).0)
            && n.history == if answer == Queued then Arrive(s.history, t, key) else s.history
  {
    hide Valid, HeldOk, FifoAll, Holders, Arrive, Same, SameQueues;
    assert PermitsOk(s.records.at[key], s.held, key, o);
    SameAt(s, p, key);
    var r := s.records.at[key];
    SetSame(s, p, key, r.(active := r.active + 1), s.held[t := key], s.history);
    SetSame(s, p, key, r.(waiters := r.waiters + [t]), s.held, Arrive(s.history, t, key));
  }

  lemma SameAt(s: Limiter, p: Plain, key: Key)
    requires Same(s, p) && key in s.records.at
    ensures s.records.at[key].waiters == At(p.queues, key) && s.held == p.held
  {
    assert Waiting(s.records, key) == At(p.queues, key);
  }

  lemma SetSame(s: Limiter, p: Plain, key: Key, r: Record, held: map<Ticket, Key>, history: History)
    requires Same(s, p) && key in s.records.at
    ensures var n := s.(records := Set(s.records, key, r), held := held, history := history);
            Same(n, Plain(held, p.queues[key := r.waiters]))
    ensures r.waiters == At(p.queues, key) ==>
              Same(s.(records := Set(s.records, key, r), held := held, history := history), p.(held := held))
  {
    var m := Set(s.records, key, r);
    forall k ensures Waiting(m, k) == if k == key then r.waiters else At(p.queues, k) {
      assert Waiting(s.records, k) == At(p.queues, k);
    }
  }

  lemma SettleSame(s: Limiter, p: Plain, t: Ticket, o: Options)
    requires Inv(s, o) && o.Normalized() && Same(s, p)
    ensures Same(Settle(s, t, o), SettlePlain(p, t))
  {
    hide Valid, PermitsAll, FifoAll, HeldOk, SameQueues, Release;
    if t in s.held {
      SettleInv(s, t, o);
      LessSame(s, p, t);
      ReleaseSame(s.(held := s.held - {t}), p.(held := p.held - {t}), s.held[t], o);
    }
  }

  lemma ReleaseSame(s: Limiter, p: Plain, key: Key, o: Options)
    requires Valid(s.records) && Same(s, p) && key in s.records.at && s.records.at[key].active > 0
    ensures var queue := At(p.queues, key);
            Same(Release(s, key, o), if queue == [] then p else Plain(p.held[queue[0] := key], p.queues[key := queue[1..]]))
  {
    SameAt(s, p, key);
    var r := s.records.at[key];
    if r.waiters == [] {
      GiveBackSame(s, p, key, o);
    } else {
      SetSame(s, p, key, r.(waiters := r.waiters[1..]), s.held[r.waiters[0] := key],
              Grant(s.history, [r.waiters[0]], key));
    }
    hide Valid, Same, Grant;
  }

  lemma GiveBackSame(s: Limiter, p: Plain, key: Key, o: Options)
    requires Valid(s.records) && Same(s, p) && key in s.records.at && s.records.at[key].active > 0
    requires s.records.at[key].waiters == []
    ensures Same(Release(s, key, o), p)
  {
    hide Same, Trim, Touch, Set, Valid;
    var less := s.records.at[key].(active := s.records.at[key].active - 1);
    var m := Set(s.records, key, less);
    SameAt(s, p, key);
    SetSame(s, p, key, less, s.held, s.history);
    SetValid(s.records, key, less);
    SetHas(s.records, key, less);
    if less.active == 0 {
      TouchValid(m, key);
      TrimSame(s.(records := m), Touch(m, key), p, o);
    }
  }

  lemma SetHas(m: Map<Record>, key: Key, r: Record)
    ensures key in Set(m, key, r).at
  {
  }

  lemma LessSame(s: Limiter, p: Plain, t: Ticket)
    requires Same(s, p)
    ensures Same(s.(held := s.held - {t}), p.(held := p.held - {t}))
  {
  }

  lemma TrimSame(s: Limiter, m: Map<Record>, p: Plain, o: Options)
    requires Same(s, p) && Valid(m) && m.at == s.records.at
    ensures Same(s.(records := Trim(m, o.maxKeys, 0)), p)
  {
    TrimQueues(m, o.maxKeys);
    hide Valid, Trim;
  }

  lemma TrimQueues(m: Map<Record>, max: nat)
    requires Valid(m)
    ensures forall k :: Waiting(Trim(m, max, 0), k) == Waiting(m, k)
  {
    TrimKeeps(m, max, 0);
    hide Valid, Trim;
  }

  lemma LeaveSame(s: Limiter, p: Plain, gone: set<Ticket>)
    requires Same(s, p)
    ensures Same(Cancel(s, gone), LeavePlain(p, gone))
  {
    forall k ensures Waiting(Cancel(s, gone).records, k) == At(LeavePlain(p, gone).queues, k) {
      assert Waiting(s.records, k) == At(p.queues, k);
      assert Without([], gone) == [];
    }
  }

  lemma {:induction false} SettleAllSame(s: Limiter, p: Plain, tickets: seq<Ticket>, o: Options)
    requires Inv(s, o) && o.Normalized() && Same(s, p)
    ensures Same(SettleAll(s, tickets, o), SettleAllPlain(p, tickets))
    decreases |tickets|
  {
    hide Valid, HeldOk, PermitsAll, FifoAll, Settle, SettlePlain, Same;
    if tickets != [] {
      SettleInv(s, tickets[0], o);
      SettleSame(s, p, tickets[0], o);
      SettleAllSame(Settle(s, tickets[0], o), SettlePlain(p, tickets[0]), tickets[1..], o);
    }
  }

  lemma SameOwn(s: Limiter, p: Plain, i: nat)
    requires Same(s, p)
    ensures OwnWaiters(s, i) == set k, t | k in p.queues && t in p.queues[k] && t.installation == i :: t
  {
    forall k, t | k in p.queues && t in p.queues[k] ensures k in s.records.at && t in s.records.at[k].waiters {
      assert Waiting(s.records, k) == At(p.queues, k);
    }
    forall k, t | k in s.records.at && t in s.records.at[k].waiters ensures k in p.queues && t in p.queues[k] {
      assert Waiting(s.records, k) == At(p.queues, k);
    }
  }

  lemma RemoveSame(s: Limiter, p: Plain, i: nat, owned: seq<Ticket>, o: Options)
    requires Inv(s, o) && o.Normalized() && Same(s, p) && Enabled(s, Uninstall(i, owned))
    ensures Same(Remove(s, i, owned, o), StepPlain(p, Uninstall(i, owned), o))
  {
    OwnWaitersWait(s, i, o);
    CancelInv(s, OwnWaiters(s, i), o);
    CancelGains(s, i, o);
    SameOwn(s, p, i);
    var gone := OwnWaiters(s, i);
    LeaveSame(s, p, gone);
    var c := Cancel(s, gone);
    SettleAllSame(c, LeavePlain(p, gone), owned, o);
    SettleAllGains(c, owned, i, o);
    var r := SettleAll(c, owned, o);
    DroppedSame(r, SettleAllPlain(LeavePlain(p, gone), owned), i, o);
    hide Inv, Cancel, SettleAll, SettleAllPlain, LeavePlain, OwnWaiters, Same, NobodyWaits;
  }

  /** The last installation leaves neither permits nor waiters. */
  lemma DroppedSame(r: Limiter, p: Plain, i: nat, o: Options)
    requires Inv(r, o) && Same(r, p) && NobodyWaits(r, i)
    ensures var left := r.(installed := r.installed - {i});
            Same(if left.installed == {} then left.(records := Map([], map[])) else left, p)
  {
    if r.installed - {i} == {} {
      forall k ensures Waiting(r.records, k) == [] {
        assert forall t | t in Waiting(r.records, k) :: t.installation in r.installed - {i};
        NoneLeft(Waiting(r.records, k), r.installed - {i});
      }
    }
    hide PermitsAll, FifoAll, Valid;
  }

  lemma StepSame(s: Limiter, p: Plain, e: Event, o: Options)
    requires Inv(s, o) && o.Normalized() && Same(s, p) && Enabled(s, e)
    ensures Same(Step(s, e, o), StepPlain(p, e, o))
  {
    hide Inv, Same, Request, AskPlain, Cancel, LeavePlain, Settle, SettlePlain, Remove;
    match e
    case Install(i) => InstalledSame(s, p, i);
    case Ask(t, key, refused) => AnswersExactly(s, p, t, key, refused, o);
    case Leave(gone) => LeaveSame(s, p, gone);
    case Settled(t) => SettleSame(s, p, t, o);
    case Uninstall(i, owned) => RemoveSame(s, p, i, owned, o);
  }

  lemma InstalledSame(s: Limiter, p: Plain, i: nat)
    requires Same(s, p)
    ensures Same(s.(installed := s.installed + {i}), p)
  {
  }

  // ---------- Every run ----------

  lemma {:induction false} RunSame(s: Limiter, p: Plain, events: seq<Event>, o: Options)
    requires Inv(s, o) && o.Normalized() && Same(s, p) && Allowed(s, events, o)
    ensures Same(Run(s, events, o), RunPlain(p, events, o))
    decreases |events|
  {
    hide Inv, Same, Step, StepPlain, Enabled;
    if events != [] {
      StepSame(s, p, events[0], o);
      RunSame(Step(s, events[0], o), StepPlain(p, events[0], o), events[1..], o);
    }
  }

  /** Records that come and go, their counters and their eviction are invisible: after every run, permits and queues
      are those of the plain limiter, and so is the next answer. */
  lemma RunsAsPlain(events: seq<Event>, o: Options, t: Ticket, key: Key, refused: bool)
    requires o.Normalized() && Inv(EMPTY, o) && Allowed(EMPTY, events, o)
    ensures var s, p := Run(EMPTY, events, o), RunPlain(NOBODY, events, o);
            && s.held == p.held && (forall k :: Waiting(s.records, k) == At(p.queues, k))
            && (Enabled(s, Ask(t, key, refused)) ==>
                  Request(s, t, key, refused, o).1 == AskPlain(p, t, key, refused, o).1)
  {
    RunSame(EMPTY, NOBODY, events, o);
    var s, p := Run(EMPTY, events, o), RunPlain(NOBODY, events, o);
    if Enabled(s, Ask(t, key, refused)) {
      AnswersExactly(s, p, t, key, refused, o);
    }
    hide Inv, Run, RunPlain, Request, AskPlain;
  }

  /** A request waits if and only if no permit of its key is free, it is not refused, and the queue has room. It is then
      the last of its queue and of the arrivals. A rejected one changes no queue, no permit and no arrivals. */
  lemma QueuedExactly(s: Limiter, t: Ticket, key: Key, refused: bool, o: Options)
    requires Inv(s, o) && o.Normalized() && Enabled(s, Ask(t, key, refused))
    ensures var (n, answer) := Request(s, t, key, refused, o);
            && (answer == Queued <==>
                  |Holders(s.held, key)| >= o.maxConcurrent && !refused && |Waiting(s.records, key)| < o.maxQueue)
            && (forall k :: Waiting(n.records, k)
                            == if answer == Queued && k == key then Waiting(s.records, k) + [t] else Waiting(s.records, k))
            && (forall k :: At(n.history.arrived, k)
                            == if answer == Queued && k == key then At(s.history.arrived, k) + [t]
                               else At(s.history.arrived, k))
            && n.held == if answer == Admitted then s.held[t := key] else s.held
  {
    hide Valid, HeldOk, PermitsAll, FifoAll, Request, Holders, Enabled, Waiting, Same;
    var p := Plain(s.held, map k | k in s.records.at :: s.records.at[k].waiters);
    OwnQueues(s, p);
    AnswersExactly(s, p, t, key, refused, o);
    QueuesOf(s, p);
    QueuesOf(Request(s, t, key, refused, o).0, AskPlain(p, t, key, refused, o).0);
  }

  lemma OwnQueues(s: Limiter, p: Plain)
    requires p == Plain(s.held, map k | k in s.records.at :: s.records.at[k].waiters)
    ensures Same(s, p)
  {
  }

  lemma QueuesOf(s: Limiter, p: Plain)
    requires Same(s, p)
    ensures s.held == p.held && forall k :: Waiting(s.records, k) == At(p.queues, k)
  {
  }

  // ---------- Eviction ----------

  /** No idle record is left beyond the maximum; busy ones are never evicted, and nothing else is. */
  lemma {:induction false} TrimBounds(m: Map<Record>, max: nat, i: nat)
    requires Valid(m) && i <= |m.order| && forall j | 0 <= j < i :: !Idle(m.at[m.order[j]])
    ensures var t := Trim(m, max, i);
            && Valid(t) && (|t.order| <= max || forall k | k in t.at :: !Idle(t.at[k]))
            && (|t.order| >= max || t == m)
            && (forall k | k in m.at && !Idle(m.at[k]) :: k in t.at)
            && forall k | k in t.at :: k in m.at && t.at[k] == m.at[k]
    decreases |m.order| - i
  {
    hide Valid, Delete;
    TrimKeeps(m, max, i);
    AllSeen(m, i);
    if i < |m.order| && |m.order| > max {
      if Idle(m.at[m.order[i]]) {
        Dropped(m, i);
        TrimBounds(Delete(m, m.order[i]), max, i);
      } else {
        TrimBounds(m, max, i + 1);
      }
    }
  }

  /** A new key finds at most `maxKeys - 1` other records, or only busy ones. */
  lemma LookupBounds(m: Map<Record>, key: Key, o: Options)
    requires Valid(m) && o.Normalized() && key !in m.at
    ensures var l := Lookup(m, key, o);
            |l.order| <= o.maxKeys || forall k | k in l.at && k != key :: !Idle(l.at[k])
  {
    hide Trim, Valid, Idle;
    TrimBounds(m, o.maxKeys - 1, 0);
    SetOne(Trim(m, o.maxKeys - 1, 0), key, Record(0, []));
  }

  lemma SetOne(m: Map<Record>, key: Key, r: Record)
    ensures |Set(m, key, r).order| <= |m.order| + 1
    ensures forall k | k in Set(m, key, r).at && k != key :: k in m.at && Set(m, key, r).at[k] == m.at[k]
  {
  }

  /** Idle records go oldest first. */
  lemma {:induction false} TrimOldestFirst(m: Map<Record>, max: nat, i: nat, a: nat, b: nat)
    requires Valid(m) && i <= |m.order| && a < b < |m.order| && forall j | 0 <= j < |m.order| :: m.order[j] in m.at
    requires forall j | 0 <= j < i :: !Idle(m.at[m.order[j]])
    requires Idle(m.at[m.order[a]]) && m.order[b] !in Trim(m, max, i).at
    ensures m.order[a] !in Trim(m, max, i).at
    decreases |m.order| - i
  {
    hide Valid, Delete;
    if i < |m.order| && |m.order| > max {
      var key := m.order[i];
      if Idle(m.at[key]) {
        Dropped(m, i);
        TrimKeeps(Delete(m, key), max, i);
        if a > i {
          TrimOldestFirst(Delete(m, key), max, i, a - 1, b - 1);
        }
      } else {
        TrimOldestFirst(m, max, i + 1, a, b);
      }
    }
  }

  /** A key becomes the newest one when its last permit comes back. */
  lemma IdleIsNewest(s: Limiter, t: Ticket, o: Options)
    requires Inv(s, o) && o.Normalized() && t in s.held
    requires |Holders(s.held, s.held[t])| == 1 && Waiting(s.records, s.held[t]) == []
    ensures var m, key := Settle(s, t, o).records, s.held[t];
            key in m.at ==> m.order != [] && m.order[|m.order| - 1] == key
  {
    hide Valid, PermitsAll, FifoAll, HeldOk, Holders, Release;
    SettleInv(s, t, o);
    OnePermit(s, s.held[t], o);
    ReleasedNewest(s.(held := s.held - {t}), s.held[t], o);
  }

  lemma OnePermit(s: Limiter, key: Key, o: Options)
    requires Inv(s, o) && key in s.records.at && |Holders(s.held, key)| == 1 && Waiting(s.records, key) == []
    ensures s.records.at[key] == Record(1, [])
  {
    assert PermitsOk(s.records.at[key], s.held, key, o);
    hide Valid, FifoAll, HeldOk, Holders;
  }

  lemma ReleasedNewest(s: Limiter, key: Key, o: Options)
    requires Valid(s.records) && key in s.records.at && s.records.at[key] == Record(1, [])
    ensures var m := Release(s, key, o).records;
            key in m.at ==> m.order != [] && m.order[|m.order| - 1] == key
  {
    hide Valid, Touch, Trim, Set;
    var m := Set(s.records, key, Record(0, []));
    SetValid(s.records, key, Record(0, []));
    SetHas(s.records, key, Record(0, []));
    TouchValid(m, key);
    TouchedLast(m, key);
    TrimLast(Touch(m, key), o.maxKeys, 0);
  }

  lemma TouchedLast(m: Map<Record>, key: Key)
    requires Valid(m) && key in m.at
    ensures Touch(m, key).order != []
  {
    TouchValid(m, key);
    assert key in m.order;
  }

  lemma {:induction false} TrimLast(m: Map<Record>, max: nat, i: nat)
    requires Valid(m) && i <= |m.order| && m.order != []
    ensures var t, last := Trim(m, max, i), m.order[|m.order| - 1];
            last in t.at ==> t.order != [] && t.order[|t.order| - 1] == last
    decreases |m.order| - i
  {
    hide Valid, Delete;
    if i < |m.order| && |m.order| > max {
      AnyKnown(m, i);
      if Idle(m.at[m.order[i]]) {
        Dropped(m, i);
        TrimKeeps(Delete(m, m.order[i]), max, i);
        if i < |m.order| - 1 {
          TrimLast(Delete(m, m.order[i]), max, i);
        }
      } else {
        TrimLast(m, max, i + 1);
      }
    }
  }

  lemma AnyKnown(m: Map<Record>, i: nat)
    requires Valid(m) && i < |m.order|
    ensures m.order[i] in m.at
  {
    assert m.order[i] in m.order;
  }

  lemma AllSeen(m: Map<Record>, i: nat)
    requires Valid(m) && i <= |m.order| && forall j | 0 <= j < i :: !Idle(m.at[m.order[j]])
    ensures if i < |m.order| then m.order[i] in m.at else forall k | k in m.at :: !Idle(m.at[k])
  {
    assert forall k | k in m.at :: k in m.order;
    assert i < |m.order| ==> m.order[i] in m.order;
  }

  lemma Dropped(m: Map<Record>, i: nat)
    requires Valid(m) && i < |m.order|
    ensures m.order[i] in m.at
    ensures var d := Delete(m, m.order[i]);
            && Valid(d) && |d.order| == |m.order| - 1 && d.at == m.at - {m.order[i]}
            && (forall j | 0 <= j < |d.order| :: d.order[j] == m.order[if j < i then j else j + 1] && d.order[j] in d.at)
  {
    DeleteValid(m, m.order[i]);
    assert m.order[i] in m.order;
    assert IndexOf(m.order, m.order[i]) == i;
    hide Delete;
  }

}
