/** The concurrency limiter: permits per key, handed over between the installations of one plugin. */
module Concurrency {
  import opened Collections
  import opened InsertionMap
  import opened Fifo

  datatype Record = Record(active: nat, waiters: seq<Ticket>)

  datatype Options = Options(maxConcurrent: nat, maxQueue: nat, maxKeys: nat)
  {
    predicate Normalized() {
      maxConcurrent >= 1 && maxKeys >= 1
    }
  }

  /** What the installations of one plugin share; `held` collects their admissions. */
  datatype Limiter = Limiter(records: Map<Record>, held: map<Ticket, Key>, installed: set<nat>, history: History)

  datatype Answer = Admitted | Queued | Rejected

  const EMPTY := Limiter(Map([], map[]), map[], {}, History(map[], map[], map[], {}))

  // ---------- Steps ----------

  predicate Idle(r: Record) {
    r.active == 0 && r.waiters == []
  }

  /** One pass over the records, oldest first, deleting idle ones while more than `max` remain. */
  function Trim(m: Map<Record>, max: nat, i: nat): Map<Record>
    requires Valid(m) && i <= |m.order|
    decreases |m.order| - i
  {
    if i == |m.order| || |m.order| <= max then m
    else if Idle(m.at[m.order[i]]) then DeleteValid(m, m.order[i]); Trim(Delete(m, m.order[i]), max, i)
    else Trim(m, max, i + 1)
  }

  function Lookup(m: Map<Record>, key: Key, o: Options): Map<Record>
    requires Valid(m) && o.Normalized()
  {
    if key in m.at then m else Set(Trim(m, o.maxKeys - 1, 0), key, Record(0, []))
  }

  /** The request hook; `refused` stands for an aborted signal or a queue timeout that is not positive. */
  function Request(s: Limiter, t: Ticket, key: Key, refused: bool, o: Options): (Limiter, Answer)
    requires Valid(s.records) && o.Normalized()
  {
    LookupKeeps(s.records, key, o);
    Answering(s.(records := Lookup(s.records, key, o)), t, key, refused, o)
  }

  function Answering(s: Limiter, t: Ticket, key: Key, refused: bool, o: Options): (Limiter, Answer)
    requires key in s.records.at
  {
    var m, r := s.records, s.records.at[key];
    if r.active < o.maxConcurrent then
      (s.(records := Set(m, key, r.(active := r.active + 1)), held := s.held[t := key]), Admitted)
    else if refused || |r.waiters| >= o.maxQueue then (s, Rejected)
    else
      (s.(records := Set(m, key, r.(waiters := r.waiters + [t])), history := Arrive(s.history, t, key)), Queued)
  }

  /** Some waiters leave their queues: an abort, a timeout, or the removal of their installation. */
  function Cancel(s: Limiter, gone: set<Ticket>): Limiter {
    var at := map k | k in s.records.at :: s.records.at[k].(waiters := Without(s.records.at[k].waiters, gone));
    s.(records := s.records.(at := at), history := s.history.(cancelled := s.history.cancelled + gone))
  }

  /** Gives one permit of `key` back: to the first waiter, or else to the record. */
  function Release(s: Limiter, key: Key, o: Options): Limiter
    requires Valid(s.records) && key in s.records.at
  {
    var r := s.records.at[key];
    if r.waiters != [] then
      var next := r.waiters[0];
      s.(records := Set(s.records, key, r.(waiters := r.waiters[1..])), held := s.held[next := key],
         history := Grant(s.history, [next], key))
    else
      var left := if r.active == 0 then 0 else r.active - 1;
      var m := Set(s.records, key, r.(active := left));
      SetValid(s.records, key, r.(active := left));
      if left == 0 then TouchValid(m, key); s.(records := Trim(Touch(m, key), o.maxKeys, 0)) else s.(records := m)
  }

  function Settle(s: Limiter, t: Ticket, o: Options): Limiter
    requires Valid(s.records)
  {
    var left := s.(held := s.held - {t});
    if t in s.held && s.held[t] in s.records.at then Release(left, s.held[t], o) else left
  }

  lemma {:induction false} TrimKeeps(m: Map<Record>, max: nat, i: nat)
    requires Valid(m) && i <= |m.order|
    ensures var t := Trim(m, max, i);
            && Valid(t)
            && (forall k | k in t.at :: k in m.at && t.at[k] == m.at[k])
            && (forall k | k in m.at && !Idle(m.at[k]) :: k in t.at)
    decreases |m.order| - i
  {
    if i < |m.order| && |m.order| > max {
      if Idle(m.at[m.order[i]]) {
        DeleteValid(m, m.order[i]);
        TrimKeeps(Delete(m, m.order[i]), max, i);
        hide Delete;
      } else {
        TrimKeeps(m, max, i + 1);
      }
    }
  }

  /** The records of `l` other than `key`'s are records of `m`, and none that is in use is missing. */
  ghost predicate SameOthers(m: map<Key, Record>, l: map<Key, Record>, key: Key) {
    && (forall k | k in l && k != key :: k in m && l[k] == m[k])
    && (forall k | k in m && k != key && !Idle(m[k]) :: k in l && l[k] == m[k])
  }

  lemma LookupKeeps(m: Map<Record>, key: Key, o: Options)
    requires Valid(m) && o.Normalized()
    ensures var l := Lookup(m, key, o);
            && Valid(l) && key in l.at
            && l.at[key] == (if key in m.at then m.at[key] else Record(0, []))
            && SameOthers(m.at, l.at, key)
  {
    hide Trim, Valid, SameOthers, Idle;
    if key !in m.at {
      var t := Trim(m, o.maxKeys - 1, 0);
      TrimKeeps(m, o.maxKeys - 1, 0);
      SetValid(t, key, Record(0, []));
      SameAfterSet(m.at, t.at, key, Record(0, []));
    } else {
      SameSelf(m.at, key);
    }
  }

  lemma SameSelf(m: map<Key, Record>, key: Key)
    ensures SameOthers(m, m, key)
  {
  }

  lemma SameAfterSet(m: map<Key, Record>, t: map<Key, Record>, key: Key, r: Record)
    requires forall k | k in t :: k in m && t[k] == m[k]
    requires forall k | k in m && !Idle(m[k]) :: k in t
    ensures SameOthers(m, t[key := r], key)
  {
  }

  // ---------- The invariant ----------

  ghost function Holders(held: map<Ticket, Key>, key: Key): set<Ticket> {
    set t | t in held && held[t] == key
  }

  /** Permits: as many as admissions, never more than allowed, and all of them out while somebody waits. */
  ghost predicate PermitsOk(r: Record, held: map<Ticket, Key>, key: Key, o: Options) {
    && r.active == |Holders(held, key)| <= o.maxConcurrent
    && (r.waiters != [] ==> r.active == o.maxConcurrent)
    && |r.waiters| <= o.maxQueue
  }

  function Waiting(m: Map<Record>, key: Key): seq<Ticket> {
    if key in m.at then m.at[key].waiters else []
  }

  /** Admissions belong to existing records and to installed plugins; a waiter holds nothing yet. */
  ghost predicate HeldOk(s: Limiter) {
    && (forall t | t in s.held :: s.held[t] in s.records.at && t.installation in s.installed)
    && (forall t | t in s.held && t in s.history.arrival :: t in At(s.history.granted, s.history.arrival[t]))
    && (forall k, t | k in s.records.at && t in s.records.at[k].waiters :: t.installation in s.installed)
    && (forall t | t in s.history.cancelled :: t in s.history.arrival)
  }

  ghost predicate Inv(s: Limiter, o: Options) {
    Valid(s.records) && HeldOk(s) && PermitsAll(s, o) && FifoAll(s)
  }

  ghost predicate PermitsAll(s: Limiter, o: Options) {
    forall k | k in s.records.at :: PermitsOk(s.records.at[k], s.held, k, o)
  }

  ghost predicate FifoAll(s: Limiter) {
    forall k :: FifoOk(Waiting(s.records, k), s.history, k)
  }

  // ---------- Every step keeps the invariant ----------

  lemma HoldersWith(held: map<Ticket, Key>, t: Ticket, key: Key, k: Key)
    requires t !in held
    ensures |Holders(held[t := key], k)| == |Holders(held, k)| + if k == key then 1 else 0
  {
    if k == key {
      assert Holders(held[t := key], k) == Holders(held, k) + {t};
    } else {
      assert Holders(held[t := key], k) == Holders(held, k);
    }
  }

  lemma HoldersLess(held: map<Ticket, Key>, t: Ticket, k: Key)
    requires t in held
    ensures |Holders(held - {t}, k)| == |Holders(held, k)| - if k == held[t] then 1 else 0
  {
    assert Holders(held - {t}, k) == Holders(held, k) - {t};
    assert t in Holders(held, k) <==> held[t] == k;
  }

  lemma LookupInv(s: Limiter, key: Key, o: Options)
    requires Inv(s, o) && o.Normalized()
    ensures Inv(s.(records := Lookup(s.records, key, o)), o)
  {
    LookupKeeps(s.records, key, o);
    var m := Lookup(s.records, key, o);
    if key !in s.records.at {
      assert Holders(s.held, key) == {};
    }
    SameUseInv(s, m, key, o);
  }

  /** Idle records may come and go. */
  lemma SameUseInv(s: Limiter, m: Map<Record>, key: Key, o: Options)
    requires Inv(s, o) && o.Normalized() && Valid(m) && key in m.at && SameOthers(s.records.at, m.at, key)
    requires if key in s.records.at then m.at[key] == s.records.at[key]
             else m.at[key] == Record(0, []) && Holders(s.held, key) == {}
    ensures Inv(s.(records := m), o)
  {
    forall t | t in s.held ensures s.held[t] in m.at {
      var k := s.held[t];
      assert t in Holders(s.held, k) && PermitsOk(s.records.at[k], s.held, k, o);
    }
    forall k ensures Waiting(m, k) == Waiting(s.records, k) {
    }
    forall k ensures FifoOk(Waiting(m, k), s.history, k) {
      assert FifoOk(Waiting(s.records, k), s.history, k);
    }
    hide Valid, Holders, FifoOk;
  }

  /** One record changes its active count by an admission of `t`. */
  lemma AdmitInv(s: Limiter, t: Ticket, key: Key, o: Options)
    requires Inv(s, o) && key in s.records.at && s.records.at[key].active < o.maxConcurrent
    requires t !in s.held && t !in s.history.arrival && t.installation in s.installed
    ensures var r := s.records.at[key];
            Inv(s.(records := Set(s.records, key, r.(active := r.active + 1)), held := s.held[t := key]), o)
  {
    var r := s.records.at[key];
    var s' := s.(records := Set(s.records, key, r.(active := r.active + 1)), held := s.held[t := key]);
    SetValid(s.records, key, r.(active := r.active + 1));
    forall k | k in s'.records.at ensures PermitsOk(s'.records.at[k], s'.held, k, o) {
      assert PermitsOk(s.records.at[k], s.held, k, o);
      HoldersWith(s.held, t, key, k);
    }
    SameQueuesFifo(s, s');
    hide Valid, Holders, FifoOk, FifoAll;
  }

  lemma SameQueuesFifo(s: Limiter, s': Limiter)
    requires FifoAll(s) && s'.history == s.history
    requires forall k :: Waiting(s'.records, k) == Waiting(s.records, k)
    ensures FifoAll(s')
  {
  }

  lemma QueueInv(s: Limiter, t: Ticket, key: Key, o: Options)
    requires Inv(s, o) && key in s.records.at && s.records.at[key].active >= o.maxConcurrent
    requires |s.records.at[key].waiters| < o.maxQueue
    requires t !in s.held && t !in s.history.arrival && t.installation in s.installed
    ensures var r := s.records.at[key];
            Inv(s.(records := Set(s.records, key, r.(waiters := r.waiters + [t])), history := Arrive(s.history, t, key)), o)
  {
    var r := s.records.at[key];
    var s' := s.(records := Set(s.records, key, r.(waiters := r.waiters + [t])), history := Arrive(s.history, t, key));
    SetValid(s.records, key, r.(waiters := r.waiters + [t]));
    forall k | k in s'.records.at ensures PermitsOk(s'.records.at[k], s'.held, k, o) {
      assert PermitsOk(s.records.at[k], s.held, k, o);
    }
    forall k ensures FifoOk(Waiting(s'.records, k), s'.history, k) {
      assert FifoOk(Waiting(s.records, k), s.history, k);
      ArriveFifo(Waiting(s.records, k), s.history, t, key, k);
    }
    hide Valid, Holders, FifoOk, Arrive;
  }

  /** Those that leave are waiting, each in the queue it arrived at. */
  ghost predicate AllWaiting(s: Limiter, gone: set<Ticket>) {
    forall t | t in gone :: t in s.history.arrival && t in Waiting(s.records, s.history.arrival[t])
  }

  lemma CancelInv(s: Limiter, gone: set<Ticket>, o: Options)
    requires Inv(s, o) && AllWaiting(s, gone)
    ensures Inv(Cancel(s, gone), o)
  {
    var c := Cancel(s, gone);
    forall k | k in c.records.at ensures PermitsOk(c.records.at[k], c.held, k, o) {
      assert PermitsOk(s.records.at[k], s.held, k, o);
      WithoutShorter(s.records.at[k].waiters, gone);
    }
    forall k ensures FifoOk(Waiting(c.records, k), c.history, k) {
      assert FifoOk(Waiting(s.records, k), s.history, k);
      CancelFifo(Waiting(s.records, k), s.history, gone, k);
      assert k !in s.records.at ==> Without([], gone) == [];
    }
    forall k, t | k in c.records.at && t in c.records.at[k].waiters ensures t.installation in c.installed {
      WithoutMembers(s.records.at[k].waiters, gone);
    }
    hide Holders, FifoOk, PermitsOk;
  }

  /** A permit of `key` comes back: the counts are those of before, less one holder. */
  ghost predicate PermitReturned(s: Limiter, key: Key, o: Options) {
    && Valid(s.records) && HeldOk(s) && FifoAll(s) && key in s.records.at
    && (forall k | k in s.records.at && k != key :: PermitsOk(s.records.at[k], s.held, k, o))
    && var r := s.records.at[key];
       && 1 <= r.active <= o.maxConcurrent && r.active == |Holders(s.held, key)| + 1
       && (r.waiters != [] ==> r.active == o.maxConcurrent)
       && |r.waiters| <= o.maxQueue
  }

  /** The permit goes to the first waiter, who held none. */
  lemma HandOverInv(s: Limiter, key: Key, o: Options)
    requires PermitReturned(s, key, o) && s.records.at[key].waiters != []
    ensures Inv(Release(s, key, o), o) && s.records.at[key].waiters[0] !in s.held
  {
    var r := s.records.at[key];
    var next, rest := r.waiters[0], r.waiters[1..];
    var s' := Release(s, key, o);
    assert FifoOk(Waiting(s.records, key), s.history, key);
    FirstWaits(r.waiters, s.history, key);
    SetValid(s.records, key, r.(waiters := rest));
    forall k | k in s'.records.at ensures PermitsOk(s'.records.at[k], s'.held, k, o) {
      HoldersWith(s.held, next, key, k);
    }
    forall k ensures FifoOk(Waiting(s'.records, k), s'.history, k) {
      assert FifoOk(Waiting(s.records, k), s.history, k);
      GrantFifo(Waiting(s.records, k), s.history, [next], key, k);
    }
    assert HeldOk(s') by {
      GrantHeld(s, key);
    }
    hide Valid, Holders, FifoOk, Grant, HeldOk, PermitsOk, Release;
  }

  lemma GrantHeld(s: Limiter, key: Key)
    requires Valid(s.records) && HeldOk(s) && key in s.records.at && s.records.at[key].waiters != []
    requires var next := s.records.at[key].waiters[0]; next in s.history.arrival && s.history.arrival[next] == key
    ensures var r := s.records.at[key];
            var next := r.waiters[0];
            HeldOk(s.(records := Set(s.records, key, r.(waiters := r.waiters[1..])), held := s.held[next := key],
                      history := Grant(s.history, [next], key)))
  {
  }

  /** Nobody waits: the permit goes back to the record, which may then be dropped as idle. */
  lemma GiveBackInv(s: Limiter, key: Key, o: Options)
    requires PermitReturned(s, key, o) && s.records.at[key].waiters == []
    ensures Inv(Release(s, key, o), o)
  {
    var r := s.records.at[key].(active := s.records.at[key].active - 1);
    var m := Set(s.records, key, r);
    SetValid(s.records, key, r);
    LessActiveInv(s, key, o);
    if r.active == 0 {
      TouchValid(m, key);
      SameRecordsInv(s.(records := m), Touch(m, key), o);
      TrimInv(s.(records := Touch(m, key)), o);
    }
    hide *;
  }

  lemma LessActiveInv(s: Limiter, key: Key, o: Options)
    requires PermitReturned(s, key, o) && s.records.at[key].waiters == []
    ensures var r := s.records.at[key];
            Inv(s.(records := Set(s.records, key, r.(active := r.active - 1))), o)
  {
    var r := s.records.at[key].(active := s.records.at[key].active - 1);
    var m := Set(s.records, key, r);
    SetValid(s.records, key, r);
    assert FifoAll(s.(records := m)) by {
      forall k ensures FifoOk(Waiting(m, k), s.history, k) {
        assert FifoOk(Waiting(s.records, k), s.history, k);
      }
    }
    hide Valid, FifoAll, FifoOk;
  }

  lemma SameRecordsInv(s: Limiter, m: Map<Record>, o: Options)
    requires Inv(s, o) && Valid(m) && m.at == s.records.at
    ensures Inv(s.(records := m), o)
  {
    forall k ensures FifoOk(Waiting(m, k), s.history, k) {
      assert FifoOk(Waiting(s.records, k), s.history, k);
    }
    hide Valid, FifoOk, PermitsOk;
  }

  lemma TrimInv(s: Limiter, o: Options)
    requires Inv(s, o)
    ensures Inv(s.(records := Trim(s.records, o.maxKeys, 0)), o)
  {
    TrimKeeps(s.records, o.maxKeys, 0);
    var m := Trim(s.records, o.maxKeys, 0);
    forall t | t in s.held ensures s.held[t] in m.at {
      var k := s.held[t];
      assert t in Holders(s.held, k) && PermitsOk(s.records.at[k], s.held, k, o);
    }
    forall k ensures Waiting(m, k) == Waiting(s.records, k) {
    }
    hide Trim, Valid, Holders;
  }

  /** A settlement always finds its record, still in the map, with a permit to give back. */
  lemma SettleInv(s: Limiter, t: Ticket, o: Options)
    requires Inv(s, o)
    ensures Inv(Settle(s, t, o), o)
    ensures t in s.held ==> s.held[t] in s.records.at && s.records.at[s.held[t]].active > 0
  {
    if t in s.held {
      var key := s.held[t];
      var left := s.(held := s.held - {t});
      assert PermitReturned(left, key, o) by {
        forall k | k in s.records.at ensures
          |Holders(left.held, k)| == |Holders(s.held, k)| - (if k == key then 1 else 0) &&
          PermitsOk(s.records.at[k], s.held, k, o)
        {
          HoldersLess(s.held, t, k);
        }
        assert t in Holders(s.held, key);
        assert FifoAll(left);
      }
      hide PermitReturned, Valid, Holders, FifoOk;
      if s.records.at[key].waiters != [] {
        HandOverInv(left, key, o);
      } else {
        GiveBackInv(left, key, o);
      }
    } else {
      assert s.held - {t} == s.held;
    }
  }

  // ---------- Events and runs ----------

  datatype Event =
    | Install(installation: nat)
    | Ask(ticket: Ticket, key: Key, refused: bool)
    | Leave(gone: set<Ticket>)
    | Settled(ticket: Ticket)
    | Uninstall(installation: nat, owned: seq<Ticket>)

  function OwnWaiters(s: Limiter, installation: nat): set<Ticket> {
    set k, t | k in s.records.at && t in s.records.at[k].waiters && t.installation == installation :: t
  }

  ghost predicate Enabled(s: Limiter, e: Event) {
    match e
    case Install(i) => i !in s.installed
    case Ask(t, _, _) => t !in s.held && t !in s.history.arrival && t.installation in s.installed
    case Leave(gone) => AllWaiting(s, gone)
    case Settled(_) => true
    case Uninstall(i, owned) =>
      i in s.installed && forall t :: t in owned <==> t in s.held && t.installation == i
  }

  function SettleAll(s: Limiter, tickets: seq<Ticket>, o: Options): (r: Limiter)
    requires Inv(s, o)
    ensures Inv(r, o)
    decreases |tickets|
  {
    if tickets == [] then s else SettleInv(s, tickets[0], o); SettleAll(Settle(s, tickets[0], o), tickets[1..], o)
  }

  /** Removal of an installation: its waiters leave, its permits come back, and the last one drops all records. */
  function Remove(s: Limiter, installation: nat, owned: seq<Ticket>, o: Options): Limiter
    requires Inv(s, o)
  {
    OwnWaitersWait(s, installation, o);
    CancelInv(s, OwnWaiters(s, installation), o);
    var r := SettleAll(Cancel(s, OwnWaiters(s, installation)), owned, o);
    var left := r.(installed := r.installed - {installation});
    if left.installed == {} then left.(records := Map([], map[])) else left
  }

  lemma OwnWaitersWait(s: Limiter, installation: nat, o: Options)
    requires Inv(s, o)
    ensures AllWaiting(s, OwnWaiters(s, installation))
  {
    forall t | t in OwnWaiters(s, installation)
      ensures t in s.history.arrival && t in Waiting(s.records, s.history.arrival[t])
    {
      var k :| k in s.records.at && t in s.records.at[k].waiters;
      assert FifoOk(Waiting(s.records, k), s.history, k);
      WaiterArrived(Waiting(s.records, k), s.history, k);
    }
  }

  ghost predicate NobodyWaits(s: Limiter, installation: nat) {
    forall k, t | k in s.records.at && t in s.records.at[k].waiters :: t.installation != installation
  }

  /** Settling hands permits to waiters only, so an installation without waiters gains none. */
  lemma SettleGains(s: Limiter, t: Ticket, installation: nat, o: Options)
    requires Inv(s, o) && NobodyWaits(s, installation)
    ensures var r := Settle(s, t, o);
            && NobodyWaits(r, installation) && r.installed == s.installed
            && forall u | u in r.held && u.installation == installation :: u in s.held && u != t
  {
    if t in s.held && s.records.at[s.held[t]].waiters != [] {
      var w := s.records.at[s.held[t]].waiters;
      assert forall u | u in w[1..] :: u in w;
      assert w[0] in w;
    } else if t in s.held {
      var key := s.held[t];
      var r := s.records.at[key];
      var left := if r.active == 0 then 0 else r.active - 1;
      var m := Set(s.records, key, r.(active := left));
      SetValid(s.records, key, r.(active := left));
      if left == 0 {
        TouchValid(m, key);
        TrimKeeps(Touch(m, key), o.maxKeys, 0);
      }
      hide Valid, PermitsAll, FifoAll, HeldOk, Trim, Touch;
    }
  }

  lemma {:induction false} SettleAllGains(s: Limiter, tickets: seq<Ticket>, installation: nat, o: Options)
    requires Inv(s, o) && NobodyWaits(s, installation)
    ensures var r := SettleAll(s, tickets, o);
            && NobodyWaits(r, installation) && r.installed == s.installed
            && forall u | u in r.held && u.installation == installation :: u in s.held && u !in tickets
    decreases |tickets|
  {
    hide Valid, HeldOk, PermitsAll, FifoAll, NobodyWaits, Settle;
    if tickets != [] {
      SettleInv(s, tickets[0], o);
      SettleGains(s, tickets[0], installation, o);
      SettleAllGains(Settle(s, tickets[0], o), tickets[1..], installation, o);
    }
  }

  lemma CancelGains(s: Limiter, installation: nat, o: Options)
    requires Inv(s, o)
    ensures NobodyWaits(Cancel(s, OwnWaiters(s, installation)), installation)
  {
    var gone := OwnWaiters(s, installation);
    forall k, t | k in s.records.at && t in Without(s.records.at[k].waiters, gone)
      ensures t.installation != installation
    {
      WithoutMembers(s.records.at[k].waiters, gone);
      assert t.installation == installation ==> t in gone;
    }
  }

  lemma RemoveInv(s: Limiter, installation: nat, owned: seq<Ticket>, o: Options)
    requires Inv(s, o) && Enabled(s, Uninstall(installation, owned))
    ensures Inv(Remove(s, installation, owned, o), o)
  {
    OwnWaitersWait(s, installation, o);
    var c := Cancel(s, OwnWaiters(s, installation));
    CancelInv(s, OwnWaiters(s, installation), o);
    CancelGains(s, installation, o);
    SettleAllGains(c, owned, installation, o);
    var r := SettleAll(c, owned, o);
    LeaveInv(r, installation, o);
    hide Inv, Cancel, SettleAll;
  }

  lemma NoneLeft(waiters: seq<Ticket>, installed: set<nat>)
    requires installed == {} && forall t | t in waiters :: t.installation in installed
    ensures waiters == []
  {
    assert waiters != [] ==> waiters[0].installation in installed;
  }

  /** An installation with neither permits nor waiters can go. */
  lemma LeaveInv(r: Limiter, installation: nat, o: Options)
    requires Inv(r, o) && NobodyWaits(r, installation)
    requires forall u | u in r.held :: u.installation != installation
    ensures var left := r.(installed := r.installed - {installation});
            Inv(if left.installed == {} then left.(records := Map([], map[])) else left, o)
  {
    var left := r.(installed := r.installed - {installation});
    if left.installed == {} {
      assert forall u | u in left.held :: u.installation in left.installed;
      assert left.held.Keys == {};
      forall k ensures Waiting(r.records, k) == [] {
        NoneLeft(Waiting(r.records, k), left.installed);
      }
      var out := left.(records := Map([], map[]));
      forall k ensures FifoOk(Waiting(out.records, k), out.history, k) {
        assert FifoOk(Waiting(r.records, k), r.history, k);
      }
    }
    hide FifoOk, PermitsOk;
  }

  lemma RequestInv(s: Limiter, t: Ticket, key: Key, refused: bool, o: Options)
    requires Inv(s, o) && o.Normalized() && Enabled(s, Ask(t, key, refused))
    ensures Inv(Request(s, t, key, refused, o).0, o)
  {
    LookupInv(s, key, o);
    LookupKeeps(s.records, key, o);
    var l := s.(records := Lookup(s.records, key, o));
    hide Valid, HeldOk, PermitsAll, FifoAll, Lookup, SameOthers, Answering;
    AnsweringInv(l, t, key, refused, o);
  }

  lemma AnsweringInv(s: Limiter, t: Ticket, key: Key, refused: bool, o: Options)
    requires Inv(s, o) && key in s.records.at && Enabled(s, Ask(t, key, refused))
    ensures Inv(Answering(s, t, key, refused, o).0, o)
  {
    hide Valid, HeldOk, PermitsAll, FifoAll, Set;
    if s.records.at[key].active < o.maxConcurrent {
      AdmitInv(s, t, key, o);
    } else if !refused && |s.records.at[key].waiters| < o.maxQueue {
      QueueInv(s, t, key, o);
    }
  }

  function Step(s: Limiter, e: Event, o: Options): (r: Limiter)
    requires Inv(s, o) && o.Normalized() && Enabled(s, e)
    ensures Inv(r, o)
  {
    match e
    case Install(i) => InstallInv(s, i, o); s.(installed := s.installed + {i})
    case Ask(t, key, refused) => RequestInv(s, t, key, refused, o); Request(s, t, key, refused, o).0
    case Leave(gone) => CancelInv(s, gone, o); Cancel(s, gone)
    case Settled(t) => SettleInv(s, t, o); Settle(s, t, o)
    case Uninstall(i, owned) => RemoveInv(s, i, owned, o); Remove(s, i, owned, o)
  }

  lemma InstallInv(s: Limiter, i: nat, o: Options)
    requires Inv(s, o)
    ensures Inv(s.(installed := s.installed + {i}), o)
  {
  }

  ghost predicate Allowed(s: Limiter, events: seq<Event>, o: Options)
    requires Inv(s, o) && o.Normalized()
    decreases |events|
  {
    events == [] || (Enabled(s, events[0]) && Allowed(Step(s, events[0], o), events[1..], o))
  }

  function Run(s: Limiter, events: seq<Event>, o: Options): (r: Limiter)
    requires Inv(s, o) && o.Normalized() && Allowed(s, events, o)
    ensures Inv(r, o)
    decreases |events|
  {
    if events == [] then s else Run(Step(s, events[0], o), events[1..], o)
  }

  // ---------- What every run guarantees ----------

  lemma EmptyInv(o: Options)
    ensures Inv(EMPTY, o)
  {
  }

  /** Permits are conserved over all installations: a record counts exactly the admissions held for its key, never
      more than allowed, and somebody waits only while every permit is out. A key without a record has none. */
  lemma PermitConservation(events: seq<Event>, o: Options, key: Key)
    requires o.Normalized() && Inv(EMPTY, o) && Allowed(EMPTY, events, o)
    ensures var s := Run(EMPTY, events, o);
            var r := if key in s.records.at then s.records.at[key] else Record(0, []);
            && r.active == |Holders(s.held, key)| <= o.maxConcurrent
            && (r.waiters != [] ==> r.active == o.maxConcurrent)
            && |r.waiters| <= o.maxQueue
  {
    var s := Run(EMPTY, events, o);
    if key in s.records.at {
      assert PermitsOk(s.records.at[key], s.held, key, o);
    } else {
      assert Holders(s.held, key) == {};
    }
  }

  /** In every run permits are granted from a queue in arrival order, skipping exactly those that gave up. */
  lemma GrantsAreFifo(events: seq<Event>, o: Options, key: Key)
    requires o.Normalized() && Inv(EMPTY, o) && Allowed(EMPTY, events, o)
    ensures var s := Run(EMPTY, events, o);
            At(s.history.granted, key) + Waiting(s.records, key)
            == Without(At(s.history.arrived, key), s.history.cancelled)
  {
    var s := Run(EMPTY, events, o);
    assert FifoOk(Waiting(s.records, key), s.history, key);
  }

  /** A request is admitted at once exactly when a permit is free, and then nobody was waiting for it. */
  lemma NoOvertaking(s: Limiter, t: Ticket, key: Key, refused: bool, o: Options)
    requires Inv(s, o) && o.Normalized() && Enabled(s, Ask(t, key, refused))
    ensures Request(s, t, key, refused, o).1 == Admitted <==> |Holders(s.held, key)| < o.maxConcurrent
    ensures Request(s, t, key, refused, o).1 == Admitted ==> Waiting(s.records, key) == []
  {
    LookupKeeps(s.records, key, o);
    if key in s.records.at {
      assert PermitsOk(s.records.at[key], s.held, key, o);
    } else {
      assert Holders(s.held, key) == {};
    }
    hide Valid, PermitsAll, FifoAll, HeldOk, Lookup, Set, Holders;
  }
}
