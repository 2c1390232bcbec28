/** The circuit breaker plugin as the object its hooks update; every hook is one step of the specification. */
module CircuitBreakerPlugin {
  import opened Collections
  import opened InsertionMap
  import opened CircuitBreaker

  class Plugin {
    const o: Options
    var heap: seq<Circuit>
    var order: seq<Key>
    var circuits: map<Key, Ref>
    var latest: Option<Ref>
    var admissions: map<Ticket, Admission>
    var installed: set<nat>
    ghost var history: seq<History>

    ghost function State(): Breaker
      reads this
    {
      Breaker(heap, history, order, circuits, latest, admissions, installed)
    }

    ghost predicate Valid()
      reads this
    {
      Inv(State(), o) && o.Normalized()
    }

    constructor (options: Options)
      requires options.Normalized()
      ensures Valid() && o == options && State() == EMPTY
    {
      o := options;
      heap, order, circuits, latest, admissions, installed, history := [], [], map[], None, map[], {}, [];
    }

    method Install(installation: nat)
      requires Valid() && installation !in installed
      modifies this
      ensures Valid() && State() == Step(old(State()), Event.Install(installation), o)
    {
      installed := installed + {installation};
    }

    /** Writes one record back; `more` is what its generation's history gains. */
    method Update(r: Ref, circuit: Circuit, ghost more: seq<bool>)
      requires r < |heap| == |history|
      modifies this`heap, this`history
      ensures State() == Put(old(State()), r, circuit, more)
    {
      history := Put(State(), r, circuit, more).history;
      heap := heap[r := circuit];
    }

    /** Deletes idle circuits, scanning from the oldest each time, until at most `max` remain. */
    method TrimCircuits(max: nat)
      requires WellFormed(State())
      modifies this`order, this`circuits
      ensures State() == Trim(old(State()), max)
    {
      while |order| > max
        invariant WellFormed(State())
        invariant Trim(State(), max) == Trim(old(State()), max)
        decreases |order|
      {
        var i := 0;
        while i < |order| && heap[circuits[order[i]]].activeRequests != 0
          invariant i <= |order|
          invariant FirstIdle(State(), 0) == FirstIdle(State(), i)
        {
          i := i + 1;
        }
        if i == |order| {
          return;
        }
        ghost var dropped := Drop(State(), i);
        circuits := circuits - {order[i]};
        order := RemoveAt(order, i);
        assert State() == dropped;
      }
    }

    method FinishAdmission(t: Ticket)
      requires WellFormed(State())
      modifies this`heap, this`admissions, this`order, this`circuits
      ensures State() == Finish(old(State()), t, o)
    {
      if t !in admissions {
        return;
      }
      var a := admissions[t];
      var c := heap[a.record];
      if a.probe {
        c := c.(probes := Minus1(c.probes));
      }
      c := c.(activeRequests := Minus1(c.activeRequests));
      heap := heap[a.record := c];
      admissions := admissions - {t};
      assert State() == Release(old(State()), t);
      TrimCircuits(o.maxCircuits);
    }

    /** Finds or creates the circuit of a key and makes the key the newest one. */
    method Touch(key: Key) returns (r: Ref)
      requires Valid()
      modifies this
      ensures State() == Enter(old(State()), key, o) && key in circuits && circuits[key] == r
    {
      if key in circuits {
        r := circuits[key];
        if latest != Some(r) {
          order := MoveToEnd(order, IndexOf(order, key));
        }
      } else {
        TrimCircuits(o.maxCircuits - 1);
        r := |heap|;
        heap := heap + [FRESH_CIRCUIT];
        history := history + [History([], true)];
        circuits := circuits[key := r];
        order := order + [key];
      }
      latest := Some(r);
    }

    /** An open circuit becomes half-open once its reset timeout has passed. */
    method RipenCircuit(r: Ref, now: real)
      requires r < |heap| == |history|
      modifies this`heap, this`history
      ensures State() == Put(old(State()), r, Ripen(old(heap)[r], now, o), [])
    {
      var c := heap[r];
      if c.state == Open && now - c.openedAt >= o.resetTimeout {
        c := Transition(c, HalfOpen, now);
      }
      Update(r, c, []);
    }

    method Grant(t: Ticket, key: Key, r: Ref)
      requires r < |heap|
      modifies this`heap, this`admissions
      ensures State() == Admit(old(State()), t, key, r)
    {
      var c := heap[r];
      var probe := c.state == HalfOpen;
      if probe {
        c := c.(probes := c.probes + 1);
      }
      c := c.(activeRequests := c.activeRequests + 1);
      heap := heap[r := c];
      admissions := admissions[t := Admission(key, c.generation, probe, r)];
    }

    method OnRequest(t: Ticket, key: Key, now: real) returns (admitted: bool)
      requires Valid() && t !in admissions && t.installation in installed
      modifies this
      ensures Valid() && (State(), admitted) == Request(old(State()), t, key, now, o)
    {
      RequestInv(State(), t, key, now, o);
      EnterKeeps(State(), key, o);
      hide WellFormed, LatestLast, RecordsOk, AdmissionsOk, Enter, Ripen;
      var r := Touch(key);
      RipenCircuit(r, now);
      var c := heap[r];
      if c.state == Open || (c.state == HalfOpen && c.probes >= o.halfOpenMaxRequests) {
        return false;
      }
      Grant(t, key, r);
      return true;
    }

    /** Counts an outcome on the record of an admission, if the record is still the current one. */
    method CountOutcome(t: Ticket, outcome: Outcome, now: real)
      requires WellFormed(State()) && t in admissions
      modifies this`heap, this`history
      ensures State() == Count(old(State()), t, outcome, now, o)
    {
      var a := admissions[t];
      if a.key !in circuits || circuits[a.key] != a.record || heap[a.record].generation != a.generation {
        return;
      }
      var c := heap[a.record];
      match outcome {
        case Success =>
          c := c.(failures := 0);
          if a.probe && c.state == HalfOpen {
            c := c.(successes := c.successes + 1);
            if c.successes >= o.successThreshold { c := Transition(c, Closed, now); }
          }
        case Failure(counted) =>
          if counted {
            if a.probe && c.state == HalfOpen {
              c := Transition(c, Open, now);
            } else if c.state == Closed {
              c := c.(failures := c.failures + 1);
              if c.failures >= o.failureThreshold { c := Transition(c, Open, now); }
            }
          }
        case Unclassified =>
      }
      assert c == NextCircuit(heap[a.record], a.probe, outcome, now, o);
      Update(a.record, c, Noted(outcome));
    }

    /** The settled hook, at the moment its outcome is known. */
    method OnSettled(t: Ticket, outcome: Outcome, now: real)
      requires Valid()
      modifies this
      ensures Valid() && State() == Settle(old(State()), t, outcome, now, o)
    {
      SettleInv(State(), t, outcome, now, o);
      CountInv(State(), t, outcome, now, o);
      hide LatestLast, RecordsOk, AdmissionsOk, Trim, Release;
      if t !in admissions {
        SettleUnknown(State(), t, outcome, now, o);
        return;
      }
      CountOutcome(t, outcome, now);
      FinishAdmission(t);
    }

    method Reset(key: Key)
      requires Valid()
      modifies this
      ensures Valid() && State() == CircuitBreaker.Reset(old(State()), key)
    {
      ResetInv(State(), key, o);
      if key in circuits {
        if latest == Some(circuits[key]) {
          latest := None;
        }
        order := RemoveAt(order, IndexOf(order, key));
        circuits := circuits - {key};
      }
    }

    method ResetEvery()
      requires Valid()
      modifies this
      ensures Valid() && State() == Clear(old(State()))
    {
      ClearInv(State(), o);
      circuits, order, latest := map[], [], None;
    }

    /** Releases the admissions of an installation; `owned` is the order in which they are visited. */
    method ReleaseOwned(installation: nat) returns (ghost owned: seq<Ticket>)
      requires Valid()
      modifies this
      ensures Valid() && Owned(old(State()), installation, owned) && State() == FinishAll(old(State()), owned, o)
    {
      ghost var was := State();
      owned := [];
      var left := set t | t in admissions && t.installation == installation;
      hide WellFormed, LatestLast, RecordsOk, AdmissionsOk, Finish;
      while left != {}
        invariant Valid()
        invariant forall t :: t in left ==> t in was.admissions && t.installation == installation
        invariant forall t :: t in was.admissions && t.installation == installation ==> t in owned || t in left
        invariant forall t :: t in owned ==> t in was.admissions && t.installation == installation
        invariant State() == FinishAll(was, owned, o)
        decreases |left|
      {
        var t :| t in left;
        FinishInv(State(), t, o);
        FinishAllMore(was, owned, t, o);
        FinishAdmission(t);
        left := left - {t};
        owned := owned + [t];
      }
    }

    method Uninstall(installation: nat) returns (ghost owned: seq<Ticket>)
      requires Valid() && installation in installed
      modifies this
      ensures Owned(old(State()), installation, owned)
      ensures Valid() && State() == Remove(old(State()), installation, owned, o)
    {
      ghost var was := State();
      owned := ReleaseOwned(installation);
      RemoveInv(was, installation, owned, o);
      hide WellFormed, LatestLast, RecordsOk, AdmissionsOk, FinishAll;
      installed := installed - {installation};
      if installed == {} {
        latest, order, circuits := None, [], map[];
      }
    }
  }

  lemma {:induction false} FinishAllMore(b: Breaker, tickets: seq<Ticket>, t: Ticket, o: Options)
    requires Inv(b, o)
    ensures FinishAll(b, tickets + [t], o) == Finish(FinishAll(b, tickets, o), t, o)
    decreases |tickets|
  {
    hide WellFormed, LatestLast, RecordsOk, AdmissionsOk, Finish;
    if tickets == [] {
      FinishInv(b, t, o);
      assert ([] + [t])[1..] == [];
      assert FinishAll(Finish(b, t, o), [], o) == Finish(b, t, o);
    } else {
      FinishInv(b, tickets[0], o);
      assert (tickets + [t])[1..] == tickets[1..] + [t];
      FinishAllMore(Finish(b, tickets[0], o), tickets[1..], t, o);
    }
  }
}
