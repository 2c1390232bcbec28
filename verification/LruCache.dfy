/** The in-memory cache store: an insertion-ordered map, kept in order of use with a shortcut for the newest key. */
module LruCache {
  import opened Collections
  import opened InsertionMap

  type Tag = nat

  datatype Entry = Entry(data: nat, tags: set<Tag>)

  // ---------- The plain cache: every use moves its key to the end ----------

  function Use(m: Map<Entry>, key: Key): Map<Entry> {
    if key in m.at then Touch(m, key) else m
  }

  /** The map without its `d` oldest keys. */
  function Suffix(m: Map<Entry>, d: nat): Map<Entry>
    requires d <= |m.order|
  {
    Map(m.order[d..], map k | k in m.at && k in m.order[d..] :: m.at[k])
  }

  /** Drops the oldest keys until `room` remain. */
  function Evict(m: Map<Entry>, room: nat): Map<Entry> {
    Suffix(m, if |m.order| <= room then 0 else |m.order| - room)
  }

  /** `max` is None for a store without limit. */
  function Put(m: Map<Entry>, key: Key, entry: Entry, max: Option<nat>): Map<Entry>
    requires Valid(m)
  {
    if max == Some(0) then m
    else
      var left := Delete(m, key);
      Set(if max.Some? then Evict(left, max.value - 1) else left, key, entry)
  }

  /** Drops every entry with one of the tags, the oldest first. */
  function Purge(m: Map<Entry>, tags: set<Tag>, i: nat): Map<Entry>
    requires Valid(m) && i <= |m.order|
    decreases |m.order| - i
  {
    if i == |m.order| then m
    else if m.at[m.order[i]].tags * tags != {} then DeleteValid(m, m.order[i]); Purge(Delete(m, m.order[i]), tags, i)
    else Purge(m, tags, i + 1)
  }

  // ---------- What the plain cache does ----------

  lemma SuffixValid(m: Map<Entry>, d: nat)
    requires Valid(m) && d <= |m.order|
    ensures Valid(Suffix(m, d)) && Within(Suffix(m, d).at, m.at)
    ensures d == 0 ==> Suffix(m, d) == m
  {
  }

  lemma SuffixSize(m: Map<Entry>, d: nat)
    requires d <= |m.order|
    ensures |Suffix(m, d).order| == |m.order| - d
  {
  }

  /** Dropping one key more. */
  lemma SuffixNext(m: Map<Entry>, d: nat)
    requires Valid(m) && d < |m.order|
    ensures Suffix(m, d).order != [] && Delete(Suffix(m, d), Suffix(m, d).order[0]) == Suffix(m, d + 1)
  {
    SuffixValid(m, d);
    SuffixValid(m, d + 1);
    var s := Suffix(m, d);
    FirstIndex(s.order);
    DeleteValid(s, s.order[0]);
    assert RemoveAt(s.order, 0) == s.order[1..] == m.order[d + 1..];
    SameAt(Delete(s, s.order[0]), Suffix(m, d + 1), m.at);
  }

  lemma SameAt(a: Map<Entry>, b: Map<Entry>, at: map<Key, Entry>)
    requires Valid(a) && Valid(b) && a.order == b.order && Within(a.at, at) && Within(b.at, at)
    ensures a == b
  {
  }

  /** The entries of one map are entries of another. */
  ghost predicate Within(e: map<Key, Entry>, m: map<Key, Entry>) {
    forall k | k in e :: k in m && e[k] == m[k]
  }

  lemma Evicted(m: Map<Entry>, d: nat, room: nat)
    requires Valid(m) && d <= |m.order| && |m.order| - d <= room && (d == 0 || |m.order| - d == room)
    ensures Suffix(m, d) == Evict(m, room) && Valid(Suffix(m, d)) && Within(Suffix(m, d).at, m.at)
  {
  }

  lemma EvictKeeps(m: Map<Entry>, room: nat)
    requires Valid(m)
    ensures var e := Evict(m, room);
            && Valid(e) && |e.order| == (if |m.order| <= room then |m.order| else room)
            && e.order == m.order[|m.order| - |e.order|..] && Within(e.at, m.at)
  {
  }

  lemma FirstIndex(order: seq<Key>)
    requires order != []
    ensures IndexOf(order, order[0]) == 0
  {
  }

  ghost predicate Purged(p: Map<Entry>, m: Map<Entry>, tags: set<Tag>) {
    && Valid(p) && |p.order| <= |m.order| && Within(p.at, m.at)
    && forall k | k in m.at :: k in p.at <==> m.at[k].tags * tags == {}
  }

  ghost predicate Seen(m: Map<Entry>, i: nat, tags: set<Tag>) {
    i <= |m.order| && forall j | 0 <= j < i :: m.order[j] in m.at && m.at[m.order[j]].tags * tags == {}
  }

  /** An invalidation drops exactly the entries with one of its tags. */
  lemma {:induction false} PurgeKeeps(m: Map<Entry>, tags: set<Tag>, i: nat)
    requires Valid(m) && Seen(m, i, tags)
    ensures Purged(Purge(m, tags, i), m, tags)
    decreases |m.order| - i
  {
    if i == |m.order| {
      AllSeen(m, tags);
    } else {
      var key := m.order[i];
      KeyKnown(m, i);
      DeleteValid(m, key);
      hide Delete, Valid, Seen, Purged;
      if m.at[key].tags * tags != {} {
        StillSeen(m, i, tags);
        PurgeKeeps(Delete(m, key), tags, i);
        PurgedMore(Purge(Delete(m, key), tags, i), Delete(m, key), m, key, tags);
      } else {
        SeenOne(m, i, tags);
        PurgeKeeps(m, tags, i + 1);
      }
    }
  }

  lemma SeenOne(m: Map<Entry>, i: nat, tags: set<Tag>)
    requires Seen(m, i, tags) && i < |m.order| && m.order[i] in m.at && m.at[m.order[i]].tags * tags == {}
    ensures Seen(m, i + 1, tags)
  {
  }

  lemma StillSeen(m: Map<Entry>, i: nat, tags: set<Tag>)
    requires Valid(m) && Seen(m, i, tags) && i < |m.order|
    ensures Seen(Delete(m, m.order[i]), i, tags)
  {
  }

  lemma AllSeen(m: Map<Entry>, tags: set<Tag>)
    requires Valid(m) && Seen(m, |m.order|, tags)
    ensures Purged(m, m, tags)
  {
  }

  lemma PurgedMore(p: Map<Entry>, d: Map<Entry>, m: Map<Entry>, key: Key, tags: set<Tag>)
    requires Purged(p, d, tags) && d.at == m.at - {key} && |d.order| <= |m.order|
    requires key in m.at && m.at[key].tags * tags != {}
    ensures Purged(p, m, tags)
  {
  }

  // ---------- Order of use ----------

  ghost predicate InOrder(order: seq<Key>, used: map<Key, nat>, now: nat) {
    && (forall i | 0 <= i < |order| :: order[i] in used && used[order[i]] < now)
    && forall i, j | 0 <= i < j < |order| :: used[order[i]] < used[order[j]]
  }

  /** When each key was last used; the map lists its keys by it. */
  ghost predicate ByUse(m: Map<Entry>, used: map<Key, nat>, now: nat) {
    Valid(m) && InOrder(m.order, used, now)
  }

  datatype Op = Get(key: Key) | Store(key: Key, entry: Entry) | Remove(key: Key) | Invalidate(tags: set<Tag>) | Clear

  function Apply(m: Map<Entry>, op: Op, max: Option<nat>): Map<Entry>
    requires Valid(m)
  {
    match op
    case Get(key) => Use(m, key)
    case Store(key, entry) => Put(m, key, entry, max)
    case Remove(key) => Delete(m, key)
    case Invalidate(tags) => Purge(m, tags, 0)
    case Clear => Map([], map[])
  }

  /** Reading a known key and storing one count as uses. */
  ghost function Used(m: Map<Entry>, used: map<Key, nat>, now: nat, op: Op, max: Option<nat>): map<Key, nat> {
    if (op.Get? && op.key in m.at) || (op.Store? && max != Some(0)) then used[op.key := now] else used
  }

  ghost predicate Bounded(m: Map<Entry>, max: Option<nat>) {
    max.Some? ==> |m.order| <= max.value
  }

  /** Removing keys, wherever they stand, keeps the others in order of use. */
  lemma RemovedByUse(m: Map<Entry>, used: map<Key, nat>, now: nat, key: Key)
    requires ByUse(m, used, now)
    ensures ByUse(Delete(m, key), used, now)
  {
    DeleteValid(m, key);
    if key in m.at {
      RemovedInOrder(m.order, used, now, IndexOf(m.order, key));
    }
    hide Valid, InOrder;
  }

  lemma RemovedInOrder(order: seq<Key>, used: map<Key, nat>, now: nat, i: nat)
    requires InOrder(order, used, now) && i < |order|
    ensures InOrder(RemoveAt(order, i), used, now)
  {
  }

  lemma AppendedByUse(m: Map<Entry>, used: map<Key, nat>, now: nat, key: Key, entry: Entry)
    requires ByUse(m, used, now) && key !in m.at
    ensures ByUse(Set(m, key, entry), used[key := now], now + 1)
  {
  }

  lemma EvictByUse(m: Map<Entry>, used: map<Key, nat>, now: nat, room: nat)
    requires ByUse(m, used, now)
    ensures ByUse(Evict(m, room), used, now)
  {
  }

  lemma {:induction false} PurgeByUse(m: Map<Entry>, used: map<Key, nat>, now: nat, tags: set<Tag>, i: nat)
    requires ByUse(m, used, now) && i <= |m.order|
    ensures ByUse(Purge(m, tags, i), used, now) && |Purge(m, tags, i).order| <= |m.order|
    decreases |m.order| - i
  {
    hide ByUse;
    if i < |m.order| {
      assert Valid(m) by { ByUseValid(m, used, now); }
      DeleteValid(m, m.order[i]);
      RemovedByUse(m, used, now, m.order[i]);
      if m.at[m.order[i]].tags * tags != {} {
        PurgeByUse(Delete(m, m.order[i]), used, now, tags, i);
      } else {
        PurgeByUse(m, used, now, tags, i + 1);
      }
    }
  }

  lemma ByUseValid(m: Map<Entry>, used: map<Key, nat>, now: nat)
    requires ByUse(m, used, now)
    ensures Valid(m)
  {
  }

  lemma PutByUse(m: Map<Entry>, used: map<Key, nat>, now: nat, key: Key, entry: Entry, max: Option<nat>)
    requires ByUse(m, used, now) && Bounded(m, max) && max != Some(0)
    ensures ByUse(Put(m, key, entry, max), used[key := now], now + 1) && Bounded(Put(m, key, entry, max), max)
  {
    hide Valid, InOrder, Delete, Evict;
    DeleteValid(m, key);
    RemovedByUse(m, used, now, key);
    var left := Delete(m, key);
    if max.Some? {
      EvictKeeps(left, max.value - 1);
      EvictByUse(left, used, now, max.value - 1);
      AppendedByUse(Evict(left, max.value - 1), used, now, key, entry);
    } else {
      AppendedByUse(left, used, now, key, entry);
    }
  }

  /** Every operation keeps the keys in order of use, and the store within its limit. */
  lemma ApplyByUse(m: Map<Entry>, used: map<Key, nat>, now: nat, op: Op, max: Option<nat>)
    requires ByUse(m, used, now) && Bounded(m, max)
    ensures ByUse(Apply(m, op, max), Used(m, used, now, op, max), now + 1) && Bounded(Apply(m, op, max), max)
  {
    match op
    case Get(key) =>
      if key in m.at {
        TouchValid(m, key);
        DeleteValid(m, key);
        RemovedByUse(m, used, now, key);
        AppendedByUse(Delete(m, key), used, now, key, m.at[key]);
      }
    case Store(key, entry) =>
      if max != Some(0) {
        PutByUse(m, used, now, key, entry, max);
      }
    case Remove(key) =>
      DeleteValid(m, key);
      RemovedByUse(m, used, now, key);
    case Invalidate(tags) => PurgeByUse(m, used, now, tags, 0);
    case Clear =>
  }

  /** After any operations on an empty store its keys stand in the order of their last use, within its limit. */
  ghost function Replay(ops: seq<Op>, max: Option<nat>): (r: (Map<Entry>, map<Key, nat>))
    ensures ByUse(r.0, r.1, |ops|) && Bounded(r.0, max)
  {
    if ops == [] then (Map([], map[]), map[])
    else
      var was := Replay(ops[..|ops| - 1], max);
      var op := ops[|ops| - 1];
      ApplyByUse(was.0, was.1, |ops| - 1, op, max);
      (Apply(was.0, op, max), Used(was.0, was.1, |ops| - 1, op, max))
  }

  /** Storing evicts the least recently used keys, no more of them than needed, and never the key stored. */
  lemma VictimsAreOldest(m: Map<Entry>, used: map<Key, nat>, now: nat, key: Key, entry: Entry, max: Option<nat>)
    requires ByUse(m, used, now) && max != Some(0)
    ensures var n := Put(m, key, entry, max);
            && key in n.at && n.at[key] == entry
            && (forall k | k in n.at && k != key :: k in m.at && n.at[k] == m.at[k])
            && (forall v, k | v in m.at && v !in n.at && k in n.at && k != key :: used[v] < used[k])
            && ((exists v :: v in m.at && v !in n.at) ==> max.Some? && |n.order| == max.value)
  {
    hide Valid, InOrder, Delete, Evict;
    DeleteValid(m, key);
    RemovedByUse(m, used, now, key);
    var left := Delete(m, key);
    if max.Some? {
      EvictKeeps(left, max.value - 1);
      EvictsOldest(left, used, now, max.value - 1);
    }
  }

  lemma EvictsOldest(m: Map<Entry>, used: map<Key, nat>, now: nat, room: nat)
    requires ByUse(m, used, now)
    ensures var e := Evict(m, room);
            && (forall k | k in m.at :: k in used)
            && (forall v, k | v in m.at && v !in e.at && k in e.at && k in m.at :: used[v] < used[k])
            && ((exists v :: v in m.at && v !in e.at) ==> |e.order| == room)
  {
  }

  // ---------- What is stored ----------

  /** What was last stored under a key, unless it has been removed or invalidated since. */
  function Latest(ops: seq<Op>, key: Key): Option<Entry> {
    if ops == [] then None
    else
      var was := Latest(ops[..|ops| - 1], key);
      match ops[|ops| - 1]
      case Get(_) => was
      case Store(k, entry) => if k == key then Some(entry) else was
      case Remove(k) => if k == key then None else was
      case Invalidate(tags) => if was.Some? && was.value.tags * tags != {} then None else was
      case Clear => None
  }

  /** After any operations on an empty store, what is found under a key is what was last stored there, and in a store
      without limit it is found. */
  lemma {:induction false} FindsLatest(ops: seq<Op>, max: Option<nat>, key: Key)
    ensures var m := Replay(ops, max).0;
            && (key in m.at ==> Latest(ops, key) == Some(m.at[key]))
            && (max.None? && Latest(ops, key).Some? ==> key in m.at)
  {
    if ops != [] {
      var front, op := ops[..|ops| - 1], ops[|ops| - 1];
      FindsLatest(front, max, key);
      var was := Replay(front, max);
      OpFinds(was.0, was.1, |front|, op, max, key);
      hide Apply, ByUse;
    }
  }

  /** One operation: what it leaves under a key. */
  lemma OpFinds(m: Map<Entry>, used: map<Key, nat>, now: nat, op: Op, max: Option<nat>, key: Key)
    requires ByUse(m, used, now) && Bounded(m, max)
    ensures Valid(m)
    ensures var n := Apply(m, op, max);
            var left := match op
                        case Get(_) => key in m.at
                        case Store(k, _) => k == key || key in m.at
                        case Remove(k) => k != key && key in m.at
                        case Invalidate(tags) => key in m.at && m.at[key].tags * tags == {}
                        case Clear => false;
            && (key in n.at ==> left && n.at[key] == if op.Store? && op.key == key then op.entry else m.at[key])
            && (left && max.None? ==> key in n.at)
  {
    hide InOrder, Delete, Purge, Put, Touch;
    ByUseValid(m, used, now);
    match op
    case Get(k) =>
      if k in m.at {
        TouchValid(m, k);
      }
    case Store(k, entry) =>
      if max == Some(0) {
        PutNothing(m, k, entry);
      } else {
        VictimsAreOldest(m, used, now, k, entry, max);
      }
    case Remove(k) => DeleteValid(m, k);
    case Invalidate(tags) => PurgeKeeps(m, tags, 0);
    case Clear =>
  }

  lemma PutNothing(m: Map<Entry>, key: Key, entry: Entry)
    requires Valid(m)
    ensures Put(m, key, entry, Some(0)) == m
  {
  }

  // ---------- The store itself ----------

  class MemoryCacheStore {
    const maxEntries: Option<nat>
    var entries: Map<Entry>
    var newestKey: Option<Key>

    /** The shortcut is sound as long as the newest key really is the last one. */
    ghost predicate Ok()
      reads this
    {
      && Valid(entries)
      && (newestKey.Some? ==> entries.order != [] && entries.order[|entries.order| - 1] == newestKey.value)
    }

    constructor (max: Option<nat>)
      ensures Ok() && maxEntries == max && entries == Map([], map[])
    {
      maxEntries, entries, newestKey := max, Map([], map[]), None;
    }

    method Get(key: Key) returns (entry: Option<Entry>)
      requires Ok()
      modifies this
      ensures Ok() && entries == Apply(old(entries), Op.Get(key), maxEntries)
      ensures entry == if key in old(entries).at then Some(old(entries).at[key]) else None
    {
      if key !in entries.at {
        return None;
      }
      entry := Some(entries.at[key]);
      if newestKey != Some(key) {
        TouchValid(entries, key);
        entries := InsertionMap.Set(InsertionMap.Delete(entries, key), key, entry.value);
        newestKey := Some(key);
      } else {
        TouchLast(entries, key);
      }
    }

    method Set(key: Key, entry: Entry)
      requires Ok()
      modifies this
      ensures Ok() && entries == Apply(old(entries), Op.Store(key, entry), maxEntries)
    {
      if maxEntries == Some(0) {
        return;
      }
      hide Valid, Evict, Delete, InsertionMap.Set;
      MakeRoom(key);
      SetLast(entries, key, entry);
      entries := InsertionMap.Set(entries, key, entry);
      newestKey := Some(key);
    }

    method MakeRoom(key: Key)
      requires Valid(entries) && maxEntries != Some(0)
      modifies this`entries
      ensures Valid(entries) && key !in entries.at && Valid(Delete(old(entries), key))
      ensures var left := Delete(old(entries), key);
              entries == if maxEntries.Some? then Evict(left, maxEntries.value - 1) else left
    {
      hide Delete, Evict, Valid, Within;
      DeleteValid(entries, key);
      entries := Delete(entries, key);
      if maxEntries.Some? {
        NotWithin(entries.at, key);
        EvictOldest(maxEntries.value - 1);
      }
    }

    method EvictOldest(room: nat)
      requires Valid(entries)
      modifies this`entries
      ensures Valid(entries) && entries == Evict(old(entries), room) && Within(entries.at, old(entries).at)
    {
      ghost var was, d := entries, 0;
      SuffixValid(was, 0);
      hide *;
      while |entries.order| > room
        invariant d <= |was.order| && entries == Suffix(was, d) && |entries.order| == |was.order| - d
        invariant d == 0 || |was.order| - d >= room
        decreases |entries.order|
      {
        DropOldest(was, d);
        d := d + 1;
      }
      Evicted(was, d, room);
    }

    method DropOldest(ghost was: Map<Entry>, ghost d: nat)
      requires Valid(was) && d < |was.order| && entries == Suffix(was, d)
      modifies this`entries
      ensures entries == Suffix(was, d + 1) && |entries.order| == |was.order| - d - 1
    {
      hide Valid, Delete, Suffix;
      SuffixNext(was, d);
      SuffixSize(was, d + 1);
      entries := Delete(entries, entries.order[0]);
    }

    method Remove(key: Key)
      requires Ok()
      modifies this
      ensures Ok() && entries == Apply(old(entries), Op.Remove(key), maxEntries)
    {
      DeleteValid(entries, key);
      LastStays(entries, key);
      entries := Delete(entries, key);
      if newestKey == Some(key) {
        newestKey := None;
      }
    }

    method InvalidateTags(tags: set<Tag>) returns (deleted: nat)
      requires Ok() && Valid(entries)
      modifies this
      ensures Ok() && Valid(entries) && entries == Apply(old(entries), Op.Invalidate(tags), maxEntries)
      ensures deleted == |old(entries).order| - |entries.order|
    {
      var i := 0;
      deleted := 0;
      ghost var goal := Purge(entries, tags, 0);
      hide Ok, Valid, Purge;
      while i < |entries.order|
        invariant Ok() && Valid(entries) && i <= |entries.order| && deleted + |entries.order| == |old(entries).order|
        invariant Purge(entries, tags, i) == goal
        decreases |entries.order| - i
      {
        var dropped := VisitKey(tags, i);
        if dropped {
          deleted := deleted + 1;
        } else {
          i := i + 1;
        }
      }
      PurgeDone(entries, tags);
    }

    /** The key at position `i` goes if its entry has one of the tags. */
    method VisitKey(tags: set<Tag>, i: nat) returns (dropped: bool)
      requires Ok() && Valid(entries) && i < |entries.order|
      modifies this
      ensures Ok() && Valid(entries)
      ensures if dropped then |entries.order| == |old(entries).order| - 1 else entries == old(entries)
      ensures i + (if dropped then 0 else 1) <= |entries.order|
      ensures Purge(old(entries), tags, i) == Purge(entries, tags, if dropped then i else i + 1)
    {
      hide Ok, Delete, Valid, Purge;
      var key := entries.order[i];
      KeyKnown(entries, i);
      PurgeNext(entries, tags, i);
      dropped := entries.at[key].tags * tags != {};
      if dropped {
        DeleteValid(entries, key);
        Remove(key);
      }
    }

    method Clear()
      requires Ok()
      modifies this
      ensures Ok() && entries == Apply(old(entries), Op.Clear, maxEntries)
    {
      entries, newestKey := Map([], map[]), None;
    }
  }

  lemma PurgeNext(m: Map<Entry>, tags: set<Tag>, i: nat)
    requires Valid(m) && i < |m.order| && m.order[i] in m.at
    ensures Valid(Delete(m, m.order[i]))
    ensures if m.at[m.order[i]].tags * tags == {} then Purge(m, tags, i) == Purge(m, tags, i + 1)
            else |Delete(m, m.order[i]).order| >= i && Purge(m, tags, i) == Purge(Delete(m, m.order[i]), tags, i)
  {
    DeleteValid(m, m.order[i]);
  }

  lemma PurgeDone(m: Map<Entry>, tags: set<Tag>)
    requires Valid(m)
    ensures Purge(m, tags, |m.order|) == m
  {
  }

  /** Touching the last key changes nothing. */
  lemma TouchLast(m: Map<Entry>, key: Key)
    requires Valid(m) && m.order != [] && m.order[|m.order| - 1] == key
    ensures Touch(m, key) == m
  {
    hide Delete, Valid;
    KeyKnown(m, |m.order| - 1);
    DeleteValid(m, key);
    LastIndex(m, key);
    assert RemoveAt(m.order, |m.order| - 1) + [key] == m.order;
    assert (m.at - {key})[key := m.at[key]] == m.at;
  }

  lemma LastIndex(m: Map<Entry>, key: Key)
    requires Valid(m) && m.order != [] && m.order[|m.order| - 1] == key
    ensures key in m.order && IndexOf(m.order, key) == |m.order| - 1
  {
    assert m.order[|m.order| - 1] in m.order;
  }

  lemma NotWithin(m: map<Key, Entry>, key: Key)
    requires key !in m
    ensures forall e | Within(e, m) :: key !in e
  {
  }

  lemma KeyKnown(m: Map<Entry>, i: nat)
    requires Valid(m) && i < |m.order|
    ensures m.order[i] in m.at
  {
  }

  lemma SetLast(m: Map<Entry>, key: Key, entry: Entry)
    requires Valid(m) && key !in m.at
    ensures var n := Set(m, key, entry); Valid(n) && n.order != [] && n.order[|n.order| - 1] == key
  {
  }

  /** Removing another key leaves the last one last. */
  lemma LastStays(m: Map<Entry>, key: Key)
    requires Valid(m)
    ensures m.order != [] && m.order[|m.order| - 1] != key ==>
              var n := Delete(m, key).order; n != [] && n[|n| - 1] == m.order[|m.order| - 1]
  {
  }
}
