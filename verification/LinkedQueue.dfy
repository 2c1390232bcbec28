/** The intrusive doubly linked waiting queue shared by the rate limiter and the concurrency limiter. */
module LinkedQueue {
  import opened Collections

  class QueueEntry {
    const id: nat
    const owner: nat
    var prev: QueueEntry?
    var next: QueueEntry?
    var linked: bool

    constructor (id: nat, owner: nat)
      ensures this.id == id && this.owner == owner && !linked
    {
      this.id, this.owner := id, owner;
      prev, next, linked := null, null, false;
    }
  }

  ghost predicate AllDifferent(s: seq<QueueEntry>) {
    forall i, j :: 0 <= i < j < |s| ==> s[i] != s[j]
  }

  lemma RemovedDifferent(s: seq<QueueEntry>, k: nat)
    requires k < |s| && AllDifferent(s)
    ensures var rest := RemoveAt(s, k);
            && AllDifferent(rest) && |rest| == |s| - 1
            && forall i | 0 <= i < |rest| :: rest[i] != s[k] && rest[i] == if i < k then s[i] else s[i + 1]
  {
  }

  class Queue {
    var head: QueueEntry?
    var tail: QueueEntry?
    var size: nat
    ghost var entries: seq<QueueEntry>
    ghost var repr: set<QueueEntry>  // every entry ever appended

    ghost predicate Valid()
      reads this, repr
    {
      && (forall i :: 0 <= i < |entries| ==> entries[i] in repr)
      && size == |entries|
      && head == (if entries == [] then null else entries[0])
      && tail == (if entries == [] then null else entries[|entries| - 1])
      && AllDifferent(entries)
      && (forall i {:trigger entries[i].linked} :: 0 <= i < |entries| ==> entries[i].linked)
      && (forall i {:trigger entries[i].prev} :: 1 <= i < |entries| ==> entries[i].prev == entries[i - 1])
      && (forall i {:trigger entries[i].next} :: 0 <= i < |entries| - 1 ==> entries[i].next == entries[i + 1])
      && (entries != [] ==> entries[0].prev == null && entries[|entries| - 1].next == null)
    }

    constructor ()
      ensures Valid() && entries == [] && repr == {}
    {
      head, tail, size, entries, repr := null, null, 0, [], {};
    }

    method Append(entry: QueueEntry)
      requires Valid() && !entry.linked
      modifies this, repr, entry
      ensures Valid() && entries == old(entries) + [entry] && repr == old(repr) + {entry}
    {
      entry.prev := tail;
      entry.next := null;
      entry.linked := true;
      if tail != null {
        tail.next := entry;
      } else {
        head := entry;
      }
      tail := entry;
      size := size + 1;
      entries, repr := entries + [entry], repr + {entry};
    }

    /** Makes `next` the successor of `prev`, or the head when there is no `prev`. */
    method JoinForward(prev: QueueEntry?, next: QueueEntry?, ghost touched: QueueEntry)
      requires prev != null ==> touched == prev
      modifies this`head, touched`next
      ensures if prev != null then prev.next == next && head == old(head) else head == next
    {
      if prev != null {
        prev.next := next;
      } else {
        head := next;
      }
    }

    /** Makes `prev` the predecessor of `next`, or the tail when there is no `next`. */
    method JoinBackward(prev: QueueEntry?, next: QueueEntry?, ghost touched: QueueEntry)
      requires next != null ==> touched == next
      modifies this`tail, touched`prev
      ensures if next != null then next.prev == prev && tail == old(tail) else tail == prev
    {
      if next != null {
        next.prev := prev;
      } else {
        tail := prev;
      }
    }

    /** Joins the neighbours of the entry at position `k` with each other. */
    method Bypass(entry: QueueEntry, ghost k: nat)
      requires Valid() && k < |entries| && entries[k] == entry
      modifies this`head, this`tail, repr
      ensures head == if k == 0 then old(entry.next) else old(head)
      ensures tail == if k == |entries| - 1 then old(entry.prev) else old(tail)
      ensures forall i {:trigger entries[i].prev} | 0 <= i < |entries| && i != k ::
                entries[i].prev == if i == k + 1 then old(entry.prev) else old(entries[i].prev)
      ensures forall i {:trigger entries[i].next} | 0 <= i < |entries| && i != k ::
                entries[i].next == if i + 1 == k then old(entry.next) else old(entries[i].next)
      ensures forall i {:trigger entries[i].linked} | 0 <= i < |entries| && i != k :: entries[i].linked
      ensures !entry.linked
    {
      var prev, next := entry.prev, entry.next;
      JoinForward(prev, next, if prev == null then entry else prev);
      JoinBackward(prev, next, if next == null then entry else next);
      entry.prev := null;
      entry.next := null;
      entry.linked := false;
    }

    /** Unlinks the entry at position `k` by joining its neighbours. */
    method Unlink(entry: QueueEntry, ghost k: nat)
      requires Valid() && k < |entries| && entries[k] == entry
      modifies this, repr
      ensures Valid() && repr == old(repr) && entries == RemoveAt(old(entries), k) && !entry.linked
    {
      hide AllDifferent;
      ghost var rest := RemoveAt(entries, k);
      RemovedDifferent(entries, k);
      assert forall i | 0 <= i < |rest| :: rest[i] == if i < k then entries[i] else entries[i + 1];
      Bypass(entry, k);
      size := size - 1;
      assert forall i {:trigger rest[i].linked} | 0 <= i < |rest| :: rest[i] in repr && rest[i].linked;
      assert forall i {:trigger rest[i].prev} | 1 <= i < |rest| :: rest[i].prev == rest[i - 1];
      assert forall i {:trigger rest[i].next} | 0 <= i < |rest| - 1 :: rest[i].next == rest[i + 1];
      assert rest != [] ==> rest[0].prev == null && rest[|rest| - 1].next == null;
      entries := rest;
    }

    /** Unlinks an entry wherever it stands; an entry no longer linked is left alone. */
    method Remove(entry: QueueEntry) returns (ghost k: nat)
      requires Valid() && (entry.linked ==> entry in entries)
      modifies this, repr
      ensures Valid() && repr == old(repr) && !entry.linked
      ensures if old(entry.linked)
              then k < |old(entries)| && old(entries)[k] == entry && entries == RemoveAt(old(entries), k)
              else entries == old(entries)
    {
      k := 0;
      if entry.linked {
        k :| 0 <= k < |entries| && entries[k] == entry;
        Unlink(entry, k);
      }
    }

    method Shift() returns (entry: QueueEntry?)
      requires Valid()
      modifies this, repr
      ensures Valid() && repr == old(repr)
      ensures entry == old(head)
      ensures if old(entries) == [] then entry == null && entries == []
              else entry == old(entries)[0] && !entry.linked && entries == old(entries)[1..]
    {
      entry := head;
      if entry != null {
        ghost var k := Remove(entry);
        assert RemoveAt(old(entries), 0) == old(entries)[1..];
      }
    }

    /** One step of the walk: the successor is read before the entry may be unlinked. */
    method StepOwned(entry: QueueEntry, owner: nat, ghost all: seq<QueueEntry>,
                     ghost i: nat) returns (next: QueueEntry?)
      requires Valid() && i < |all| && entry == all[i] && entries == Walked(all, i, owner)
      modifies this, repr
      ensures Valid() && repr == old(repr) && entries == Walked(all, i + 1, owner)
      ensures next == if i + 1 < |all| then all[i + 1] else null
      ensures Taken(all, i + 1, owner) == Taken(all, i, owner) + if entry.owner == owner then [entry.id] else []
    {
      WalkOn(all, i, owner);
      ghost var k := |Keep(all[..i], owner, false)|;
      next := entry.next;
      if entry.owner == owner {
        Unlink(entry, k);
      }
    }

    /** Removal of an installation unlinks that owner's entries and keeps the others in order. */
    method RemoveOwned(owner: nat) returns (rejected: seq<nat>)
      requires Valid()
      modifies this, repr
      ensures Valid() && repr == old(repr)
      ensures entries == Keep(old(entries), owner, false)
      ensures rejected == Ids(Keep(old(entries), owner, true))
    {
      ghost var all, i: nat := entries, 0;
      rejected := [];
      var entry := head;
      WalkEnds(all, owner);
      hide *;
      while entry != null
        invariant i <= |all| && Valid() && repr == old(repr)
        invariant entry == if i < |all| then all[i] else null
        invariant entries == Walked(all, i, owner)
        invariant rejected == Taken(all, i, owner)
        decreases |all| - i
      {
        if entry.owner == owner {
          rejected := rejected + [entry.id];
        }
        entry := StepOwned(entry, owner, all, i);
        i := i + 1;
      }
    }
  }

  /** The chain while it is walked: the kept entries of the first `i`, then the rest. */
  ghost function Walked(all: seq<QueueEntry>, i: nat, owner: nat): seq<QueueEntry>
    requires i <= |all|
  {
    Keep(all[..i], owner, false) + all[i..]
  }

  function Ids(entries: seq<QueueEntry>): (ids: seq<nat>)
    ensures |ids| == |entries| && forall i | 0 <= i < |entries| :: ids[i] == entries[i].id
  {
    if entries == [] then [] else [entries[0].id] + Ids(entries[1..])
  }

  /** The owner's entries among the first `i`. */
  ghost function Taken(all: seq<QueueEntry>, i: nat, owner: nat): seq<nat>
    requires i <= |all|
  {
    Ids(Keep(all[..i], owner, true))
  }

  lemma WalkEnds(all: seq<QueueEntry>, owner: nat)
    ensures Walked(all, 0, owner) == all && Taken(all, 0, owner) == []
    ensures Walked(all, |all|, owner) == Keep(all, owner, false) && Taken(all, |all|, owner) == Ids(Keep(all, owner, true))
  {
    assert all[..|all|] == all && all[0..] == all;
  }

  lemma WalkOn(all: seq<QueueEntry>, i: nat, owner: nat)
    requires i < |all|
    ensures var k := |Keep(all[..i], owner, false)|;
            var now := Walked(all, i, owner);
            && k < |now| && now[k] == all[i]
            && (k + 1 < |now| <==> i + 1 < |all|) && (i + 1 < |all| ==> now[k + 1] == all[i + 1])
            && Walked(all, i + 1, owner) == if all[i].owner == owner then RemoveAt(now, k) else now
    ensures Taken(all, i + 1, owner) == Taken(all, i, owner) + if all[i].owner == owner then [all[i].id] else []
  {
    var kept, e, rest := Keep(all[..i], owner, false), all[i], all[i + 1..];
    assert all[..i + 1] == all[..i] + [e] && all[i..] == [e] + rest;
    KeepAppend(all[..i], e, owner);
    Middle(kept, e, rest);
    hide RemoveAt, Keep, Ids;
    IdsMore(Keep(all[..i], owner, true), e);
  }

  lemma IdsMore(entries: seq<QueueEntry>, last: QueueEntry)
    ensures Ids(entries + [last]) == Ids(entries) + [last.id]
    ensures Ids(entries + []) == Ids(entries)
  {
    assert entries + [] == entries;
  }

  lemma Middle<T>(a: seq<T>, x: T, b: seq<T>)
    ensures a + ([x] + b) == a + [x] + b
    ensures RemoveAt(a + ([x] + b), |a|) == a + b
  {
  }

  /** The entries of `owner` (`own`), or all the others, in order. */
  function Keep(entries: seq<QueueEntry>, owner: nat, own: bool): seq<QueueEntry> {
    if entries == [] then []
    else (if (entries[0].owner == owner) == own then [entries[0]] else []) + Keep(entries[1..], owner, own)
  }

  lemma {:induction false} KeepAppend(entries: seq<QueueEntry>, last: QueueEntry, owner: nat)
    ensures forall own :: Keep(entries + [last], owner, own)
                          == Keep(entries, owner, own) + if (last.owner == owner) == own then [last] else []
  {
    if entries == [] {
      assert entries + [last] == [last];
    } else {
      KeepAppend(entries[1..], last, owner);
      assert (entries + [last])[1..] == entries[1..] + [last];
    }
  }

  // ---------- The limiters' view ----------

  /** A limiter sees a queue as the tickets of its entries. */
  function Tickets(entries: seq<QueueEntry>): (tickets: seq<Ticket>)
    ensures |tickets| == |entries|
    ensures forall i | 0 <= i < |tickets| :: tickets[i] == Ticket(entries[i].owner, entries[i].id)
  {
    seq(|entries|, i requires 0 <= i < |entries| => Ticket(entries[i].owner, entries[i].id))
  }

  /** Unlinking one entry cancels one ticket. */
  lemma UnlinkCancels(entries: seq<QueueEntry>, k: nat)
    requires k < |entries| && Distinct(Tickets(entries))
    ensures Tickets(RemoveAt(entries, k)) == Without(Tickets(entries), {Tickets(entries)[k]})
  {
    WithoutOne(Tickets(entries), k);
    TicketsLess(entries, k);
    hide *;
  }

  lemma TicketsLess(entries: seq<QueueEntry>, k: nat)
    requires k < |entries|
    ensures Tickets(RemoveAt(entries, k)) == RemoveAt(Tickets(entries), k)
  {
    var a, b := Tickets(RemoveAt(entries, k)), RemoveAt(Tickets(entries), k);
    hide RemoveAt, Tickets;
    assert |a| == |b| && forall i | 0 <= i < |a| :: a[i] == b[i];
  }

  /** The walk that unlinks one owner's entries cancels the tickets of that installation, in order. */
  lemma {:induction false} RemovalCancels(entries: seq<QueueEntry>, owner: nat, gone: set<Ticket>)
    requires forall t | t in Tickets(entries) :: t in gone <==> t.installation == owner
    ensures Tickets(Keep(entries, owner, false)) == Without(Tickets(entries), gone)
  {
    if entries != [] {
      var front, last := entries[..|entries| - 1], entries[|entries| - 1];
      assert entries == front + [last];
      TicketsMore(front, last);
      TicketsMore(Keep(front, owner, false), last);
      hide Tickets, Without, Keep;
      KeepAppend(front, last, owner);
      WithoutLast(Tickets(front), Ticket(last.owner, last.id), gone);
      RemovalCancels(front, owner, gone);
    }
  }

  lemma TicketsMore(entries: seq<QueueEntry>, last: QueueEntry)
    ensures Tickets(entries + [last]) == Tickets(entries) + [Ticket(last.owner, last.id)]
    ensures forall t | t in Tickets(entries) :: t in Tickets(entries + [last])
    ensures Ticket(last.owner, last.id) in Tickets(entries + [last])
  {
    var t := Ticket(last.owner, last.id);
    assert Tickets(entries + [last]) == Tickets(entries) + [t];
    assert t in [t];
  }
}
