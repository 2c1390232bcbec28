/** Which circuits the breaker keeps, in which order, and what forgetting one leaves. */
module CircuitBreakerKeys {
  import opened Collections
  import opened InsertionMap
  import opened CircuitBreaker

  ghost function Gone(b: Breaker, n: Breaker): set<Key> {
    b.circuits.Keys - n.circuits.Keys
  }

  predicate IdleAt(b: Breaker, key: Key) {
    key in b.circuits && b.circuits[key] < |b.heap| && b.heap[b.circuits[key]].activeRequests == 0
  }

  ghost function IdleKeys(b: Breaker): set<Key> {
    set k | k in b.circuits && IdleAt(b, k)
  }

  /** No idle key stays that is older than one that goes. */
  ghost predicate OldestFirst(order: seq<Key>, idle: set<Key>, gone: set<Key>) {
    forall i, j | 0 <= i < j < |order| && order[j] in gone && order[i] in idle :: order[i] in gone
  }

  /** Idle circuits only are gone, the oldest of them, and the others stay in order. */
  ghost predicate OldestGone(b: Breaker, n: Breaker) {
    n.order == Without(b.order, Gone(b, n)) && Gone(b, n) <= IdleKeys(b) && OldestFirst(b.order, IdleKeys(b), Gone(b, n))
  }

  lemma NothingGone(b: Breaker)
    requires WellFormed(b)
    ensures OldestGone(b, b)
  {
    assert Gone(b, b) == {};
    WithoutNone(b.order, {});
  }

  /** Trimming takes the oldest idle circuits, as many as needed and no more, and nothing else. */
  lemma {:induction false} TrimExactly(b: Breaker, max: nat)
    requires WellFormed(b)
    ensures var t := Trim(b, max);
            && OldestGone(b, t) && (|t.order| <= max || forall k | k in t.circuits :: !IdleAt(t, k))
            && (|t.order| >= max || t == b)
    decreases |b.order|
  {
    var i := FirstIdle(b, 0);
    hide WellFormed, Drop, OldestGone, IdleAt, FirstIdle;
    if |b.order| > max && i < |b.order| {
      TrimExactly(Drop(b, i), max);
      TrimKeeps(Drop(b, i), max);
      DropKeeps(b, i);
      FirstGone(b, i, Trim(Drop(b, i), max));
    } else {
      NothingGone(b);
      AllBusy(b);
    }
  }

  lemma AllBusy(b: Breaker)
    requires WellFormed(b)
    ensures FirstIdle(b, 0) == |b.order| ==> forall k | k in b.circuits :: !IdleAt(b, k)
  {
    assert forall k | k in b.circuits :: k in b.order;
  }

  /** The first idle circuit is the oldest one. */
  lemma FirstGone(b: Breaker, i: nat, t: Breaker)
    requires WellFormed(b) && i == FirstIdle(b, 0) < |b.order| && OldestGone(Drop(b, i), t)
    requires forall k :: k in t.circuits ==> k in Drop(b, i).circuits
    ensures OldestGone(b, t)
  {
    hide WellFormed, OldestFirst, FirstIdle, Without;
    var d, key := Drop(b, i), b.order[i];
    DropKeeps(b, i);
    DropIdle(b, i);
    WithoutMore(b.order, {key}, Gone(d, t));
    MoreGone(b, d, t, key);
    FirstIsOldest(b.order, i, IdleKeys(b), Gone(d, t));
  }

  lemma MoreGone(b: Breaker, d: Breaker, t: Breaker, key: Key)
    requires d.circuits == b.circuits - {key} && key in b.circuits && t.circuits.Keys <= d.circuits.Keys
    ensures Gone(b, t) == {key} + Gone(d, t)
  {
  }

  lemma DropIdle(b: Breaker, i: nat)
    requires WellFormed(b) && i == FirstIdle(b, 0) < |b.order|
    ensures Distinct(b.order)
    ensures var d, key := Drop(b, i), b.order[i];
            && key in b.circuits && d.circuits == b.circuits - {key} && key in IdleKeys(b)
            && d.order == RemoveAt(b.order, i) == Without(b.order, {key})
            && IdleKeys(d) == IdleKeys(b) - {key} && forall j | 0 <= j < i :: b.order[j] !in IdleKeys(b)
  {
    assert b.order[i] in b.order;
    WithoutOne(b.order, i);
    hide Without;
  }

  lemma FirstIsOldest(order: seq<Key>, i: nat, idle: set<Key>, gone: set<Key>)
    requires Distinct(order) && i < |order| && forall j | 0 <= j < i :: order[j] !in idle
    requires OldestFirst(RemoveAt(order, i), idle - {order[i]}, gone)
    ensures OldestFirst(order, idle, {order[i]} + gone)
  {
    var rest := RemoveAt(order, i);
    forall a, b | 0 <= a < b < |order| && order[b] in {order[i]} + gone && order[a] in idle
      ensures order[a] in {order[i]} + gone
    {
      if a > i && order[b] in gone && order[a] != order[i] {
        assert rest[a - 1] == order[a] && rest[b - 1] == order[b];
      }
    }
  }

  /** A request makes its key the newest one. A known key changes nothing else of the order; a new one may cost idle
      circuits, the oldest, when there are too many. */
  lemma RequestOrders(b: Breaker, t: Ticket, key: Key, now: real, o: Options)
    requires Inv(b, o) && o.Normalized()
    ensures var n := Request(b, t, key, now, o).0;
            if key in b.circuits then n.order == Without(b.order, {key}) + [key] && n.circuits == b.circuits
            else
              && n.order == Without(b.order, Gone(b, n)) + [key] && Gone(b, n) <= IdleKeys(b)
              && OldestFirst(b.order, IdleKeys(b), Gone(b, n))
              && (|n.order| <= o.maxCircuits || forall k | k in b.circuits && k in n.circuits :: !IdleAt(b, k))
              && (|n.order| >= o.maxCircuits || Gone(b, n) == {})
  {
    hide RecordsOk, AdmissionsOk, Enter, Without, OldestFirst, IdleKeys, IdleAt, WellFormed, LatestLast;
    if key in b.circuits {
      KnownNewest(b, key, o);
    } else {
      NewNewest(b, key, o);
    }
    OnlyEnters(b, t, key, now, o);
  }

  lemma OnlyEnters(b: Breaker, t: Ticket, key: Key, now: real, o: Options)
    requires Inv(b, o)
    ensures var n, e := Request(b, t, key, now, o).0, Enter(b, key, o);
            n.order == e.order && n.circuits == e.circuits && (key in b.circuits ==> n.circuits == b.circuits)
  {
    EnterKeeps(b, key, o);
    hide WellFormed, RecordsOk, AdmissionsOk, LatestLast, Enter, Ripen;
  }

  lemma KnownNewest(b: Breaker, key: Key, o: Options)
    requires WellFormed(b) && LatestLast(b) && key in b.circuits
    ensures Enter(b, key, o).order == Without(b.order, {key}) + [key]
  {
    var i := IndexOf(b.order, key);
    WithoutOne(b.order, i);
    if b.latest == Some(b.circuits[key]) {
      assert i == |b.order| - 1;
      assert RemoveAt(b.order, i) + [key] == b.order;
    }
  }

  lemma NewNewest(b: Breaker, key: Key, o: Options)
    requires WellFormed(b) && key !in b.circuits && o.Normalized()
    ensures var n := Enter(b, key, o);
            && n.order == Without(b.order, Gone(b, n)) + [key] && Gone(b, n) <= IdleKeys(b)
            && OldestFirst(b.order, IdleKeys(b), Gone(b, n))
            && (|n.order| <= o.maxCircuits || forall k | k in b.circuits && k in n.circuits :: !IdleAt(b, k))
            && (|n.order| >= o.maxCircuits || Gone(b, n) == {})
  {
    hide WellFormed, Trim, Without, OldestFirst, IdleKeys;
    var t := Trim(b, o.maxCircuits - 1);
    TrimExactly(b, o.maxCircuits - 1);
    TrimKeeps(b, o.maxCircuits - 1);
    assert Gone(b, Enter(b, key, o)) == Gone(b, t);
  }

  /** Giving an admission back leaves no idle circuit beyond the maximum, and costs the oldest idle ones only. */
  lemma SettlementTrims(b: Breaker, t: Ticket, outcome: Outcome, now: real, o: Options)
    requires Inv(b, o) && o.Normalized() && t in b.admissions
    ensures var n, released := Settle(b, t, outcome, now, o), Release(Count(b, t, outcome, now, o), t);
            && released.order == b.order && released.circuits == b.circuits && OldestGone(released, n)
            && (|n.order| <= o.maxCircuits || forall k | k in n.circuits :: !IdleAt(n, k))
            && (|n.order| >= o.maxCircuits || n.order == b.order)
  {
    hide RecordsOk, AdmissionsOk, LatestLast, WellFormed, OldestGone, IdleAt, Trim;
    SameKeys(b, t, outcome, now, o);
    TrimExactly(Release(Count(b, t, outcome, now, o), t), o.maxCircuits);
  }

  lemma SameKeys(b: Breaker, t: Ticket, outcome: Outcome, now: real, o: Options)
    requires Inv(b, o) && t in b.admissions
    ensures var c := Count(b, t, outcome, now, o);
            && WellFormed(c) && t in c.admissions && WellFormed(Release(c, t))
            && Release(c, t).order == b.order && Release(c, t).circuits == b.circuits
  {
    hide RecordsOk, AdmissionsOk, LatestLast, NextCircuit;
  }

  /** Forgetting a circuit makes its key unknown, so that it counts as closed, and touches nothing else. */
  lemma ResetForgets(b: Breaker, key: Key, o: Options)
    requires Inv(b, o)
    ensures var n := Reset(b, key);
            && n.circuits == b.circuits - {key} && n.order == Without(b.order, {key})
            && n.heap == b.heap && n.admissions == b.admissions
            && (key in b.circuits ==> n.latest != Some(b.circuits[key]))
  {
    if key in b.circuits {
      WithoutOne(b.order, IndexOf(b.order, key));
    } else {
      WithoutNone(b.order, {key});
    }
  }

  /** The removal of an installation releases exactly its admissions; the last one to go leaves no circuits. */
  lemma RemovalReleases(b: Breaker, installation: nat, owned: seq<Ticket>, o: Options)
    requires Inv(b, o) && Enabled(b, Uninstall(installation, owned))
    ensures var n := Remove(b, installation, owned, o);
            && n.installed == b.installed - {installation}
            && (forall t :: t in n.admissions <==> t in b.admissions && t.installation != installation)
            && (n.installed == {} ==> n.circuits == map[])
  {
    FinishAllReleases(b, owned, o);
    hide Inv, FinishAll;
  }

  lemma {:induction false} FinishAllReleases(b: Breaker, tickets: seq<Ticket>, o: Options)
    requires Inv(b, o)
    ensures var n := FinishAll(b, tickets, o);
            n.installed == b.installed && forall t :: t in n.admissions <==> t in b.admissions && t !in tickets
    decreases |tickets|
  {
    hide WellFormed, RecordsOk, AdmissionsOk, LatestLast, Finish;
    if tickets != [] {
      FinishInv(b, tickets[0], o);
      FinishOne(b, tickets[0], o);
      FinishAllReleases(Finish(b, tickets[0], o), tickets[1..], o);
    }
  }

  lemma FinishOne(b: Breaker, t: Ticket, o: Options)
    requires Inv(b, o)
    ensures var n := Finish(b, t, o); n.installed == b.installed && n.admissions == b.admissions - {t}
  {
    hide Trim, WellFormed, RecordsOk, AdmissionsOk, LatestLast;
    if t in b.admissions {
      Released(b, t);
      TrimKeeps(Release(b, t), o.maxCircuits);
    } else {
      assert b.admissions - {t} == b.admissions;
    }
  }

  lemma Released(b: Breaker, t: Ticket)
    requires WellFormed(b) && t in b.admissions
    ensures var r := Release(b, t);
            WellFormed(r) && r.admissions == b.admissions - {t} && r.installed == b.installed
  {
  }
}
