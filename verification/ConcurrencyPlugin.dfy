/** The concurrency plugin as the object its hooks update; every hook is one step of the specification. */
module ConcurrencyPlugin {
  import opened Collections
  import opened InsertionMap
  import opened Fifo
  import opened Concurrency

  class Plugin {
    const o: Options
    var records: Map<Record>
    var held: map<Ticket, Key>
    var installed: set<nat>
    ghost var history: History

    ghost function State(): Limiter
      reads this
    {
      Limiter(records, held, installed, history)
    }

    ghost predicate Ok()
      reads this
    {
      Inv(State(), o) && o.Normalized()
    }

    constructor (options: Options)
      requires options.Normalized()
      ensures Ok() && o == options && State() == EMPTY
    {
      o := options;
      records, held, installed := Map([], map[]), map[], {};
      history := History(map[], map[], map[], {});
    }

    method Install(installation: nat)
      requires Ok() && installation !in installed
      modifies this
      ensures Ok() && State() == Step(old(State()), Event.Install(installation), o)
    {
      InstallInv(State(), installation, o);
      installed := installed + {installation};
    }

    /** One pass over the records, oldest first, deleting idle ones until at most `max` remain. */
    method TrimRecords(max: nat)
      requires Valid(records)
      modifies this`records
      ensures records == Trim(old(records), max, 0)
    {
      var i := 0;
      while i < |records.order| && |records.order| > max
        invariant Valid(records) && i <= |records.order|
        invariant Trim(records, max, i) == Trim(old(records), max, 0)
        decreases |records.order| - i
      {
        var key := records.order[i];
        if Idle(records.at[key]) {
          DeleteValid(records, key);
          records := Delete(records, key);
        } else {
          i := i + 1;
        }
      }
    }

    /** Finds or creates the record of a key. */
    method GetRecord(key: Key)
      requires Valid(records) && o.Normalized()
      modifies this`records
      ensures records == Lookup(old(records), key, o)
    {
      if key !in records.at {
        TrimRecords(o.maxKeys - 1);
        records := Set(records, key, Record(0, []));
      }
    }

    method TakePermit(t: Ticket, key: Key)
      requires key in records.at
      modifies this`records, this`held
      ensures var r := old(records).at[key];
              records == Set(old(records), key, r.(active := r.active + 1)) && held == old(held)[t := key]
    {
      var r := records.at[key];
      records := Set(records, key, r.(active := r.active + 1));
      held := held[t := key];
    }

    method Enqueue(t: Ticket, key: Key)
      requires key in records.at
      modifies this`records, this`history
      ensures var r := old(records).at[key];
              records == Set(old(records), key, r.(waiters := r.waiters + [t])) && history == Arrive(old(history), t, key)
    {
      var r := records.at[key];
      records := Set(records, key, r.(waiters := r.waiters + [t]));
      history := Arrive(history, t, key);
    }

    /** The part of the request hook that runs on the record found. */
    method Answers(t: Ticket, key: Key, refused: bool) returns (answer: Answer)
      requires key in records.at
      modifies this`records, this`held, this`history
      ensures (State(), answer) == Answering(old(State()), t, key, refused, o)
    {
      var r := records.at[key];
      if r.active < o.maxConcurrent {
        TakePermit(t, key);
        answer := Admitted;
      } else if refused || |r.waiters| >= o.maxQueue {
        answer := Rejected;
      } else {
        Enqueue(t, key);
        answer := Queued;
      }
    }

    method OnRequest(t: Ticket, key: Key, refused: bool) returns (answer: Answer)
      requires Ok() && Enabled(State(), Ask(t, key, refused))
      modifies this
      ensures Ok() && (State(), answer) == Request(old(State()), t, key, refused, o)
    {
      RequestInv(State(), t, key, refused, o);
      LookupKeeps(records, key, o);
      hide HeldOk, PermitsAll, FifoAll, Lookup, Valid, SameOthers, Enabled, Answering;
      GetRecord(key);
      answer := Answers(t, key, refused);
    }

    /** Hands a permit to the first waiter, or gives it back to the record. */
    method ReleaseAdmission(key: Key)
      requires Valid(records) && key in records.at
      modifies this`records, this`held, this`history
      ensures State() == Release(old(State()), key, o)
    {
      var r := records.at[key];
      if |r.waiters| > 0 {
        var next := r.waiters[0];
        records := Set(records, key, r.(waiters := r.waiters[1..]));
        held := held[next := key];
        history := Grant(history, [next], key);
        return;
      }
      var left := if r.active == 0 then 0 else r.active - 1;
      SetValid(records, key, r.(active := left));
      records := Set(records, key, r.(active := left));
      if left == 0 {
        TouchValid(records, key);
        records := Touch(records, key);
        TrimRecords(o.maxKeys);
      }
    }

    method OnSettled(t: Ticket)
      requires Ok()
      modifies this
      ensures Ok() && State() == Settle(old(State()), t, o)
    {
      SettleInv(State(), t, o);
      if t !in held {
        assert held - {t} == held;
        return;
      }
      assert Valid(records);
      hide HeldOk, PermitsAll, FifoAll, Release;
      var key := held[t];
      held := held - {t};
      ReleaseAdmission(key);
    }

    /** An abort or a timeout takes one waiter out of the queue it stands in. */
    method OnLeave(t: Ticket, key: Key)
      requires Ok() && key in records.at && t in records.at[key].waiters
      modifies this
      ensures Ok() && State() == Cancel(old(State()), {t})
    {
      WaitsOnce(State(), t, key, o);
      CancelInv(State(), {t}, o);
      CancelOne(State(), t, key);
      hide HeldOk, PermitsAll, FifoAll, Valid, Cancel;
      var r := records.at[key];
      records := Set(records, key, r.(waiters := Without(r.waiters, {t})));
      history := history.(cancelled := history.cancelled + {t});
    }

    /** The removal walks every queue and keeps the entries of the other installations. */
    method SweepRecords(installation: nat)
      requires Valid(records)
      modifies this`records
      ensures records == Cancel(old(State()), OwnWaiters(old(State()), installation)).records
    {
      ghost var was, gone := State(), OwnWaiters(State(), installation);
      var keys := records.order;
      assert Distinct(keys) && forall k :: k in keys <==> k in was.records.at;
      assert Swept(was.records, gone, {}).at == was.records.at;
      hide Valid, Cancel, Swept;
      ghost var done: set<Key> := {};
      var i := 0;
      while i < |keys|
        invariant i <= |keys| && forall k :: k in done <==> k in keys[..i]
        invariant records == Swept(was.records, gone, done)
      {
        assert keys[i] !in keys[..i] && keys[..i + 1] == keys[..i] + [keys[i]];
        SweepRecord(keys[i], installation, was, done);
        done := done + {keys[i]};
        i := i + 1;
      }
      assert keys[..i] == keys;
      SweptAll(was, gone, done);
    }

    method RemoveWaiters(installation: nat)
      requires Ok()
      modifies this`records, this`history
      ensures Ok() && State() == Cancel(old(State()), OwnWaiters(old(State()), installation))
    {
      ghost var gone := OwnWaiters(State(), installation);
      OwnWaitersWait(State(), installation, o);
      CancelInv(State(), gone, o);
      hide HeldOk, PermitsAll, FifoAll, Valid;
      SweepRecords(installation);
      history := history.(cancelled := history.cancelled + gone);
    }

    method SweepRecord(key: Key, installation: nat, ghost was: Limiter, ghost done: set<Key>)
      requires key in was.records.at && key !in done
      requires records == Swept(was.records, OwnWaiters(was, installation), done)
      modifies this`records
      ensures records == Swept(was.records, OwnWaiters(was, installation), done + {key})
    {
      SweepOne(was, installation, done, key);
      var r := records.at[key];
      hide Swept;
      var kept := KeepOthers(r.waiters, installation, OwnWaiters(was, installation));
      records := Set(records, key, r.(waiters := kept));
    }

    /** Releases the admissions of an installation; `owned` is the order in which they are visited. */
    method ReleaseOwned(installation: nat) returns (ghost owned: seq<Ticket>)
      requires Ok()
      modifies this
      ensures forall t :: t in owned <==> t in old(held) && t.installation == installation
      ensures Ok() && State() == SettleAll(old(State()), owned, o)
    {
      ghost var was := State();
      owned := [];
      var left := set t | t in held && t.installation == installation;
      hide Valid, HeldOk, PermitsAll, FifoAll, Settle;
      while left != {}
        invariant Ok() && State() == SettleAll(was, owned, o)
        invariant forall t :: t in left ==> t in was.held && t.installation == installation
        invariant forall t :: t in was.held && t.installation == installation ==> t in owned || t in left
        invariant forall t :: t in owned ==> t in was.held && t.installation == installation
        decreases |left|
      {
        var t :| t in left;
        SettleAllMore(was, owned, t, o);
        OnSettled(t);
        left := left - {t};
        owned := owned + [t];
      }
    }

    /** Removal of one installation; `owned` is the order in which its admissions are released. */
    method Uninstall(installation: nat) returns (ghost owned: seq<Ticket>)
      requires Ok() && installation in installed
      modifies this
      ensures Enabled(old(State()), Event.Uninstall(installation, owned))
      ensures Ok() && State() == Remove(old(State()), installation, owned, o)
    {
      ghost var was := State();
      RemoveWaiters(installation);
      owned := ReleaseOwned(installation);
      RemoveInv(was, installation, owned, o);
      hide Valid, HeldOk, PermitsAll, FifoAll, SettleAll;
      installed := installed - {installation};
      if installed == {} {
        records := Map([], map[]);
      }
    }
  }

  function Left(r: Record, gone: set<Ticket>): Record {
    r.(waiters := Without(r.waiters, gone))
  }

  /** The records once the queues of the keys in `done` have been swept. */
  ghost function Swept(m: Map<Record>, gone: set<Ticket>, done: set<Key>): Map<Record> {
    Map(m.order, map k | k in m.at :: if k in done then Left(m.at[k], gone) else m.at[k])
  }

  lemma SweptAll(s: Limiter, gone: set<Ticket>, done: set<Key>)
    requires forall k | k in s.records.at :: k in done
    ensures Cancel(s, gone) == s.(records := Swept(s.records, gone, done),
                                  history := s.history.(cancelled := s.history.cancelled + gone))
  {
  }

  lemma SweepOne(s: Limiter, installation: nat, done: set<Key>, key: Key)
    requires key in s.records.at
    ensures var gone := OwnWaiters(s, installation);
            var m := Swept(s.records, gone, done);
            && key in m.at
            && (key !in done ==> m.at[key] == s.records.at[key])
            && (forall t | t in s.records.at[key].waiters :: t in gone <==> t.installation == installation)
            && Set(m, key, Left(s.records.at[key], gone)) == Swept(s.records, gone, done + {key})
  {
  }

  lemma CancelOne(s: Limiter, t: Ticket, key: Key)
    requires key in s.records.at
    requires forall k | k in s.records.at && k != key :: Without(s.records.at[k].waiters, {t}) == s.records.at[k].waiters
    ensures var r := s.records.at[key];
            Cancel(s, {t}) == s.(records := Set(s.records, key, r.(waiters := Without(r.waiters, {t}))),
                                 history := s.history.(cancelled := s.history.cancelled + {t}))
  {
  }

  /** A waiter stands in one queue only. */
  lemma WaitsOnce(s: Limiter, t: Ticket, key: Key, o: Options)
    requires Inv(s, o) && key in s.records.at && t in s.records.at[key].waiters
    ensures AllWaiting(s, {t})
    ensures forall k | k in s.records.at && k != key :: Without(s.records.at[k].waiters, {t}) == s.records.at[k].waiters
  {
    forall k | k in s.records.at && t in s.records.at[k].waiters
      ensures t in s.history.arrival && s.history.arrival[t] == k
    {
      assert FifoOk(Waiting(s.records, k), s.history, k);
      WaiterArrived(Waiting(s.records, k), s.history, k);
    }
    forall k | k in s.records.at && k != key
      ensures Without(s.records.at[k].waiters, {t}) == s.records.at[k].waiters
    {
      WithoutNone(s.records.at[k].waiters, {t});
    }
  }

  lemma {:induction false} SettleAllMore(s: Limiter, tickets: seq<Ticket>, t: Ticket, o: Options)
    requires Inv(s, o)
    ensures SettleAll(s, tickets + [t], o) == Settle(SettleAll(s, tickets, o), t, o)
    decreases |tickets|
  {
    hide Valid, HeldOk, PermitsAll, FifoAll, Settle;
    if tickets == [] {
      SettleInv(s, t, o);
      assert ([] + [t])[1..] == [];
      assert SettleAll(Settle(s, t, o), [], o) == Settle(s, t, o);
    } else {
      SettleInv(s, tickets[0], o);
      assert (tickets + [t])[1..] == tickets[1..] + [t];
      SettleAllMore(Settle(s, tickets[0], o), tickets[1..], t, o);
    }
  }
}
