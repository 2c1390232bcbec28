/** What it means for a limiter to serve its queues in arrival order. */
module Fifo {
  import opened Collections
  import opened InsertionMap

  /** Bookkeeping of the specification: where everybody queued, in which order, who got a permit from a queue,
      and who gave up. */
  datatype History = History(arrival: map<Ticket, Key>, arrived: map<Key, seq<Ticket>>,
                             granted: map<Key, seq<Ticket>>, cancelled: set<Ticket>)

  function At<T>(log: map<Key, seq<T>>, key: Key): seq<T> {
    if key in log then log[key] else []
  }

  function Arrive(h: History, t: Ticket, key: Key): History {
    h.(arrival := h.arrival[t := key], arrived := h.arrived[key := At(h.arrived, key) + [t]])
  }

  function Grant(h: History, served: seq<Ticket>, key: Key): History {
    h.(granted := h.granted[key := At(h.granted, key) + served])
  }

  /** First come, first served: grants followed by waiters are the arrivals without those that gave up. */
  ghost predicate FifoOk(waiting: seq<Ticket>, h: History, key: Key) {
    && At(h.granted, key) + waiting == Without(At(h.arrived, key), h.cancelled)
    && Distinct(At(h.arrived, key))
    && forall t | t in At(h.arrived, key) :: t in h.arrival && h.arrival[t] == key
  }

  lemma ArriveFifo(waiting: seq<Ticket>, h: History, t: Ticket, key: Key, k: Key)
    requires FifoOk(waiting, h, k) && t !in h.arrival && t !in h.cancelled
    ensures FifoOk(if k == key then waiting + [t] else waiting, Arrive(h, t, key), k)
  {
    hide Without, Distinct, At;
    var n := Arrive(h, t, key);
    ArriveLogs(h, t, key, k);
    if k == key {
      WithoutLast(At(h.arrived, key), t, h.cancelled);
      assert At(h.granted, key) + waiting + [t] == At(h.granted, key) + (waiting + [t]);
      DistinctMore(At(h.arrived, key), t);
    }
  }

  lemma ArriveLogs(h: History, t: Ticket, key: Key, k: Key)
    ensures var n := Arrive(h, t, key);
            && At(n.arrived, k) == (if k == key then At(h.arrived, key) + [t] else At(h.arrived, k))
            && At(n.granted, k) == At(h.granted, k)
  {
  }

  lemma DistinctMore(s: seq<Ticket>, t: Ticket)
    requires Distinct(s) && t !in s
    ensures Distinct(s + [t])
  {
  }

  lemma CancelFifo(waiting: seq<Ticket>, h: History, gone: set<Ticket>, k: Key)
    requires FifoOk(waiting, h, k)
    requires forall t | t in gone && t in h.arrival && h.arrival[t] == k :: t in waiting
    ensures FifoOk(Without(waiting, gone), h.(cancelled := h.cancelled + gone), k)
  {
    var granted, arrived := At(h.granted, k), At(h.arrived, k);
    WithoutMore(arrived, h.cancelled, gone);
    WithoutAppend(granted, waiting, gone);
    WithoutDistinct(arrived, h.cancelled);
    WithoutMembers(arrived, h.cancelled);
    Apart(granted, waiting);
    assert forall i | 0 <= i < |granted| :: granted[i] in granted + waiting;
    WithoutNone(granted, gone);
  }

  /** The two halves of a sequence without repetition share nothing. */
  lemma Apart(a: seq<Ticket>, b: seq<Ticket>)
    requires Distinct(a + b)
    ensures forall t | t in a :: t !in b
  {
    forall i, j | 0 <= i < |a| && 0 <= j < |b| ensures a[i] != b[j] {
      assert (a + b)[i] == a[i] && (a + b)[|a| + j] == b[j];
    }
  }

  lemma {:induction false} WithoutShorter(s: seq<Ticket>, gone: set<Ticket>)
    ensures |Without(s, gone)| <= |s|
  {
    if s != [] {
      WithoutShorter(s[..|s| - 1], gone);
    }
  }

  lemma FirstWaits(waiters: seq<Ticket>, h: History, key: Key)
    requires FifoOk(waiters, h, key) && waiters != []
    ensures waiters[0] in h.arrival && h.arrival[waiters[0]] == key && waiters[0] !in At(h.granted, key)
  {
    WithoutDistinct(At(h.arrived, key), h.cancelled);
    WithoutMembers(At(h.arrived, key), h.cancelled);
    Apart(At(h.granted, key), waiters);
    assert (At(h.granted, key) + waiters)[|At(h.granted, key)|] == waiters[0];
  }

  lemma GrantFifo(waiting: seq<Ticket>, h: History, served: seq<Ticket>, key: Key, k: Key)
    requires FifoOk(waiting, h, k) && (k == key ==> served <= waiting)
    ensures FifoOk(if k == key then waiting[|served|..] else waiting, Grant(h, served, key), k)
  {
  }

  /** A waiter stands in the queue it arrived at, and in no other. */
  lemma WaiterArrived(waiting: seq<Ticket>, h: History, key: Key)
    requires FifoOk(waiting, h, key)
    ensures forall t | t in waiting :: t in h.arrival && h.arrival[t] == key
  {
    WithoutMembers(At(h.arrived, key), h.cancelled);
    forall t | t in waiting ensures t in At(h.arrived, key) {
      assert t in At(h.granted, key) + waiting;
    }
  }

  /** The queue entries that do not belong to `installation`. */
  method KeepOthers(waiters: seq<Ticket>, installation: nat, ghost gone: set<Ticket>) returns (kept: seq<Ticket>)
    requires forall t | t in waiters :: t in gone <==> t.installation == installation
    ensures kept == Without(waiters, gone)
  {
    kept := [];
    var j := 0;
    while j < |waiters|
      invariant j <= |waiters| && kept == Without(waiters[..j], gone)
    {
      assert waiters[..j + 1] == waiters[..j] + [waiters[j]];
      WithoutLast(waiters[..j], waiters[j], gone);
      if waiters[j].installation != installation {
        kept := kept + [waiters[j]];
      }
      j := j + 1;
    }
    assert waiters[..j] == waiters;
  }
}
