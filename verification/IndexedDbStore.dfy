/** The persistent cache store: every transaction is one atomic change of a map of records. */
module IndexedDbStore {
  import opened Collections
  import opened IndexedDbRecords

  datatype Config = Config(namespace: nat, schema: nat, limits: Limits)

  predicate IsCurrent(db: map<Key, Record>, k: Key, c: Config) {
    k in db && Classify(db[k], c.namespace, c.schema).Current?
  }

  /** Unreadable or outdated records of the namespace. */
  predicate IsJunk(db: map<Key, Record>, k: Key, c: Config) {
    && k in db && db[k].namespace == c.namespace
    && (Classify(db[k], c.namespace, c.schema).Malformed? || Classify(db[k], c.namespace, c.schema).Older?)
  }

  /** A readable record of this namespace. */
  predicate Ours(r: Record, c: Config) {
    r.wellFormed && r.namespace == c.namespace
  }

  predicate IsFutureAt(db: map<Key, Record>, k: Key, c: Config) {
    k in db && IsFuture(db[k], c.schema)
  }

  /** The records that stay when junk is removed. */
  function Clean(db: map<Key, Record>, c: Config): map<Key, Record> {
    map k | k in db && !IsJunk(db, k, c) :: db[k]
  }

  function Sizes(order: seq<Key>, db: map<Key, Record>): (s: seq<nat>)
    requires forall i | 0 <= i < |order| :: order[i] in db
    ensures |s| == |order| && forall i | 0 <= i < |s| :: s[i] == db[order[i]].size
  {
    if order == [] then [] else Sizes(order[..|order| - 1], db) + [db[order[|order| - 1]].size]
  }

  function Elements(s: seq<Key>): set<Key> {
    set i | 0 <= i < |s| :: s[i]
  }

  /** The current records in the order of eviction. */
  ghost predicate IsOrder(order: seq<Key>, db: map<Key, Record>, newest: Option<Key>, c: Config) {
    Sorted(order, db, newest) && forall k :: k in order <==> IsCurrent(db, k, c)
  }

  predicate Unlimited(l: Limits) {
    l.maxEntries.None? && l.maxBytes.None?
  }

  /** What a write does: nothing to a newer record; otherwise the record is put, and when there are limits, junk goes,
      and so do records from the front of the order of eviction. */
  ghost predicate Written(was: map<Key, Record>, now: map<Key, Record>, key: Key, record: Record, order: seq<Key>,
                          c: Config) {
    var put := was[key := record];
    if IsFutureAt(was, key, c) then now == was
    else if Unlimited(c.limits) then now == put
    else
      && IsOrder(order, put, Some(key), c)
      && now == Clean(put, c) - Elements(order[..Evictions(Sizes(order, put), Total(Sizes(order, put)), c.limits)])
  }

  // ---------- What a write guarantees ----------

  function CurrentKeys(db: map<Key, Record>, c: Config): set<Key> {
    set k | k in db && IsCurrent(db, k, c)
  }

  /** The kept part of the order is exactly what is current afterwards. */
  lemma KeptAreCurrent(put: map<Key, Record>, order: seq<Key>, newest: Option<Key>, d: nat, c: Config)
    requires IsOrder(order, put, newest, c) && d <= |order|
    ensures CurrentKeys(Clean(put, c) - Elements(order[..d]), c) == Elements(order[d..])
  {
    var now := Clean(put, c) - Elements(order[..d]);
    SplitElements(order, d);
    forall k | k in Elements(order[d..]) ensures k !in Elements(order[..d]) {
      var j :| 0 <= j < |order[d..]| && order[d..][j] == k;
      NotBefore(order, put, newest, d, d + j);
    }
    forall k ensures k in CurrentKeys(now, c) <==> k in Elements(order[d..]) {
      assert k in order <==> IsCurrent(put, k, c);
    }
  }

  lemma SplitElements(order: seq<Key>, d: nat)
    requires d <= |order|
    ensures forall k :: k in order <==> k in Elements(order[..d]) || k in Elements(order[d..])
  {
  }

  lemma NotBefore(order: seq<Key>, put: map<Key, Record>, newest: Option<Key>, d: nat, j: nat)
    requires Sorted(order, put, newest) && d <= j < |order|
    ensures order[j] !in Elements(order[..d])
  {
  }

  /** After writing a valid record that fits on its own: it is there; the current records are the end of the order of
      eviction; dropping any shorter prefix of that order would not have been enough; and both limits are kept exactly
      when the running total never takes too much for little enough, which is so whenever all current sizes add up to
      a safe integer. */
  lemma WriteKeepsLimits(was: map<Key, Record>, now: map<Key, Record>, key: Key, record: Record, order: seq<Key>,
                         c: Config)
    requires Written(was, now, key, record, order, c) && !IsFutureAt(was, key, c) && !Unlimited(c.limits)
    requires Classify(record, c.namespace, c.schema).Current? && Fits(1, record.size, c.limits)
    ensures var put := was[key := record];
            var sizes := Sizes(order, put);
            var d := Evictions(sizes, Total(sizes), c.limits);
            && key in now && now[key] == record && d < |order| && order[|order| - 1] == key
            && CurrentKeys(now, c) == Elements(order[d..])
            && (forall e | 0 <= e < d :: !Fits(|order| - e, Sum(sizes[e..]), c.limits))
            && (Fits(|order| - d, Sum(sizes[d..]), c.limits) <==> CountedRight(sizes, c.limits))
            && (Sum(sizes) <= MAX_SAFE_INTEGER ==> CountedRight(sizes, c.limits))
  {
    hide Sum, Evictions, Sorted, Fits, Sizes, Total, Clean, Elements, CurrentKeys, CountedRight;
    var put := was[key := record];
    SizesOf(order, put, key, c);
    var sizes := Sizes(order, put);
    EvictionsExact(sizes, c.limits);
    NewestLast(order, put, key, c);
    LastStays(sizes, c.limits);
    var d := Evictions(sizes, Total(sizes), c.limits);
    KeptAreCurrent(put, order, Some(key), d, c);
    LastInside(order, put, key, d, c);
  }

  lemma SizesOf(order: seq<Key>, put: map<Key, Record>, key: Key, c: Config)
    requires IsOrder(order, put, Some(key), c)
    ensures Known(order, put) && |Sizes(order, put)| == |order|
    ensures forall i | 0 <= i < |order| :: Sizes(order, put)[i] == put[order[i]].size
  {
  }

  lemma LastInside(order: seq<Key>, put: map<Key, Record>, key: Key, d: nat, c: Config)
    requires IsOrder(order, put, Some(key), c) && d < |order| && order[|order| - 1] == key
    requires IsCurrent(put, key, c)
    ensures key in Clean(put, c) - Elements(order[..d])
    ensures (Clean(put, c) - Elements(order[..d]))[key] == put[key]
  {
  }

  lemma NewestLast(order: seq<Key>, put: map<Key, Record>, key: Key, c: Config)
    requires IsOrder(order, put, Some(key), c) && IsCurrent(put, key, c)
    ensures order != [] && order[|order| - 1] == key
  {
  }

  /** The record of `k` was used before every current one that stays, but that of the key just written; at the same
      instant the smaller key goes first. */
  ghost predicate UsedBefore(k: Key, was: map<Key, Record>, now: map<Key, Record>, key: Option<Key>, c: Config) {
    k in was && forall q: Key | IsCurrent(now, q, c) && key != Some(q) ::
      q in was && was[k].accessedAt <= was[q].accessedAt && (was[k].accessedAt == was[q].accessedAt ==> k < q)
  }

  /** Whatever the sizes: newer records, and records of other namespaces, are neither deleted nor overwritten; when there
      are limits, all junk goes; otherwise only evicted records go, which were used no later than every current record
      that stays. */
  lemma WriteSparesOthers(was: map<Key, Record>, now: map<Key, Record>, key: Key, record: Record, order: seq<Key>,
                          c: Config, k: Key)
    requires Written(was, now, key, record, order, c) && k in was && k != key
    requires record.namespace == c.namespace
    ensures IsFutureAt(was, k, c) || was[k].namespace != c.namespace ==> k in now && now[k] == was[k]
    ensures k in now ==> now[k] == was[k]
    ensures IsJunk(was, k, c) && !IsFutureAt(was, key, c) ==> (k in now <==> Unlimited(c.limits))
    ensures k !in now ==> IsJunk(was, k, c) || (IsCurrent(was, k, c) && UsedBefore(k, was, now, Some(key), c))
  {
    var put := was[key := record];
    if !IsFutureAt(was, key, c) && !Unlimited(c.limits) {
      var d := Evictions(Sizes(order, put), Total(Sizes(order, put)), c.limits);
      KeptAreCurrent(put, order, Some(key), d, c);
      hide Evictions, Total, Sizes;
      if k in Elements(order[..d]) {
        EvictedUsedBefore(put, now, Some(key), order, d, c, k);
      }
    }
  }

  /** What goes from the front of the order was used before what stays. */
  lemma EvictedUsedBefore(put: map<Key, Record>, now: map<Key, Record>, newest: Option<Key>, order: seq<Key>, d: nat,
                          c: Config, k: Key)
    requires IsOrder(order, put, newest, c) && d <= |order| && CurrentKeys(now, c) == Elements(order[d..])
    requires k in Elements(order[..d]) && newest != Some(k)
    ensures IsCurrent(put, k, c) && UsedBefore(k, put, now, newest, c)
  {
    var i :| 0 <= i < d && order[..d][i] == k;
    assert order[i] in order;
    forall q: Key | IsCurrent(now, q, c) && newest != Some(q)
      ensures q in put && put[k].accessedAt <= put[q].accessedAt && (put[k].accessedAt == put[q].accessedAt ==> k < q)
    {
      assert q in CurrentKeys(now, c);
      var j :| 0 <= j < |order[d..]| && order[d..][j] == q;
      assert Before(order[i], order[d + j], put, newest);
    }
  }

  // ---------- Transactions ----------

  ghost predicate FutureSpared(was: map<Key, Record>, now: map<Key, Record>, c: Config) {
    forall k | IsFutureAt(was, k, c) :: k in now && now[k] == was[k]
  }

  function Deleted(db: map<Key, Record>, key: Key, c: Config): map<Key, Record> {
    if IsFutureAt(db, key, c) then db else db - {key}
  }

  function Half(n: nat): (h: nat)
    ensures h <= n && (n > 0 ==> h > 0)
  {
    (n + 1) / 2
  }

  /** What quota recovery does: junk goes, and so does the older half of the current records. */
  ghost predicate Recovered(was: map<Key, Record>, now: map<Key, Record>, order: seq<Key>, c: Config) {
    IsOrder(order, was, None, c) && now == Clean(was, c) - Elements(order[..Half(|order|)])
  }

  /** Current records of the namespace that a sweep is to delete. */
  datatype Sweep = All | Tagged(tags: set<nat>) | ExpiredBefore(instant: real)

  predicate Matches(r: Record, sweep: Sweep) {
    match sweep
    case All => true
    case Tagged(tags) => r.tags * tags != {}
    case ExpiredBefore(t) => r.expiresAt.Some? && r.expiresAt.value <= t
  }

  predicate Removable(db: map<Key, Record>, k: Key, sweep: Sweep, c: Config) {
    IsJunk(db, k, c) || (IsCurrent(db, k, c) && Matches(db[k], sweep))
  }

  function RemovableIn(keys: set<Key>, db: map<Key, Record>, sweep: Sweep, c: Config): set<Key> {
    set k | k in keys && Removable(db, k, sweep, c)
  }

  /** What a sweep deletes: records of this namespace without a version, with an older one, or unreadable; and of the
      readable ones of this very version those that are asked for. */
  lemma RemovableExactly(db: map<Key, Record>, k: Key, sweep: Sweep, c: Config)
    requires k in db
    ensures var r := db[k];
            Removable(db, k, sweep, c)
            <==> r.namespace == c.namespace && (r.version.Some? ==> r.version.value <= c.schema)
                 && (r.version == Some(c.schema) && r.wellFormed ==>
                       match sweep
                       case All => true
                       case Tagged(tags) => exists t :: t in tags && t in r.tags
                       case ExpiredBefore(instant) => r.expiresAt.Some? && !(instant < r.expiresAt.value))
  {
    if sweep.Tagged? && exists t :: t in sweep.tags && t in db[k].tags {
      var t :| t in sweep.tags && t in db[k].tags;
      assert t in db[k].tags * sweep.tags;
    }
  }

  class Store {
    const c: Config
    var db: map<Key, Record>

    constructor (config: Config, records: map<Key, Record>)
      ensures c == config && db == records
    {
      c, db := config, records;
    }

    /** Deletes the junk of the namespace, and sorts its current records by the order of eviction. */
    method SortRecords(newest: Option<Key>) returns (order: seq<Key>)
      modifies this
      ensures db == Clean(old(db), c) && IsOrder(order, old(db), newest, c)
    {
      ghost var was := db;
      var stored, rest := db, db.Keys;
      order := [];
      hide Sorted, Before;
      assert Sorted(order, was, newest) by { SortedNothing(was, newest); }
      while rest != {}
        invariant rest <= was.Keys && db == CleanBut(was, rest, c)
        invariant Sorted(order, was, newest) && forall k :: k in order <==> IsCurrent(was, k, c) && k !in rest
        decreases |rest|
      {
        var key :| key in rest;
        CleanOne(was, rest, key, c);
        if IsJunk(stored, key, c) {
          db := db - {key};
        } else if IsCurrent(stored, key, c) {
          SortedKnown(order, was, newest);
          InsertSorts(order, key, was, newest);
          order := Insert(order, key, stored, newest);
        }
        rest := rest - {key};
      }
      assert db == Clean(was, c);
    }

    /** Deletes records from the front of the order until the limits hold. */
    method EvictRecords(order: seq<Key>, ghost put: map<Key, Record>)
      requires Known(order, put) && forall i | 0 <= i < |order| :: order[i] in db && db[order[i]] == put[order[i]]
      modifies this
      ensures var sizes := Sizes(order, put);
              db == old(db) - Elements(order[..Evictions(sizes, Total(sizes), c.limits)])
    {
      var total := AddUp(order, put);
      EvictWhileOver(order, total, Sizes(order, put));
    }

    method EvictWhileOver(order: seq<Key>, bytes: nat, ghost sizes: seq<nat>)
      requires |sizes| == |order|
      requires forall i | 0 <= i < |order| :: order[i] in db && db[order[i]].size == sizes[i]
      modifies this
      ensures db == old(db) - Elements(order[..Evictions(sizes, bytes, c.limits)])
    {
      ghost var was := db;
      var stored, total := db, bytes;
      var i, retained := 0, |order|;
      assert sizes[0..] == sizes && Elements(order[..0]) == {};
      ghost var d := Evictions(sizes, total, c.limits);
      hide Elements, Fits, Evictions;
      while i < |order| && !Fits(retained, total, c.limits)
        invariant i <= |order| && retained == |order| - i
        invariant d == i + Evictions(sizes[i..], total, c.limits)
        invariant db == was - Elements(order[..i])
      {
        EvictionsStep(sizes, i, total, c.limits);
        ElementsMore(order, i);
        MinusMore(was, Elements(order[..i]), order[i]);
        var size := stored[order[i]].size;
        db := db - {order[i]};
        total := if total > size then total - size else 0;
        i, retained := i + 1, retained - 1;
      }
      EvictionsDone(sizes, i, total, c.limits);
    }

    method AddUp(order: seq<Key>, ghost put: map<Key, Record>) returns (total: nat)
      requires Known(order, put) && forall i | 0 <= i < |order| :: order[i] in db && db[order[i]] == put[order[i]]
      ensures total == Total(Sizes(order, put))
    {
      ghost var sizes := Sizes(order, put);
      total := 0;
      var i := 0;
      while i < |order|
        invariant i <= |order| && total == Total(sizes[..i])
      {
        assert sizes[..i + 1][..i] == sizes[..i] && sizes[..i + 1][i] == db[order[i]].size;
        total := AddSize(total, db[order[i]].size);
        i := i + 1;
      }
      assert sizes[..i] == sizes;
    }

    method WriteRecord(key: Key, record: Record) returns (wrote: bool, ghost order: seq<Key>)
      requires record.namespace == c.namespace && record.version == Some(c.schema)
      modifies this
      ensures wrote <==> !IsFutureAt(old(db), key, c)
      ensures Written(old(db), db, key, record, order, c) && FutureSpared(old(db), db, c)
    {
      wrote, order := false, [];
      if key in db && IsFuture(db[key], c.schema) {
        return;
      }
      wrote := true;
      ghost var was := db;
      db := db[key := record];
      ghost var put := db;
      if c.limits.maxEntries.Some? || c.limits.maxBytes.Some? {
        var records := SortRecords(Some(key));
        order := records;
        OrderInside(order, put, Some(key), c);
        hide IsOrder, Clean;
        EvictRecords(records, put);
      }
      WrittenSpares(was, db, key, record, order, c);
      hide Written;
    }

    method RecoverQuota() returns (deleted: bool, ghost order: seq<Key>)
      modifies this
      ensures Recovered(old(db), db, order, c) && FutureSpared(old(db), db, c)
      ensures deleted <==> db != old(db)
    {
      ghost var was := db;
      var before := |db|;
      var records := SortRecords(None);
      order := records;
      OrderInside(order, was, None, c);
      var half := Half(|records|);
      db := db - Elements(records[..half]);
      RecoveredSpares(was, db, order, c);
      hide Recovered, FutureSpared, IsOrder;
      deleted := |db| != before;
      Smaller(was, db);
    }

    method Delete(key: Key)
      modifies this
      ensures db == Deleted(old(db), key, c) && FutureSpared(old(db), db, c)
    {
      if !(key in db && IsFuture(db[key], c.schema)) {
        db := db - {key};
      }
    }

    /** Reads a record and marks it as used; one that cannot be read here is deleted unless it is newer. */
    method Get(key: Key, now: real) returns (found: Option<Record>)
      modifies this
      ensures FutureSpared(old(db), db, c)
      ensures found.Some? <==>
                && c.limits.maxEntries != Some(0) && c.limits.maxBytes != Some(0)
                && key in old(db) && Ours(old(db)[key], c) && old(db)[key].version == Some(c.schema)
      ensures found.Some? ==> found.value == old(db)[key].(accessedAt := now) && db == old(db)[key := found.value]
      ensures found.None? ==> db == Deleted(old(db), key, c)
    {
      if c.limits.maxEntries == Some(0) || c.limits.maxBytes == Some(0) || key !in db {
        Delete(key);
        return None;
      }
      if !Classify(db[key], c.namespace, c.schema).Current? {
        Delete(key);
        return None;
      }
      found := Some(db[key].(accessedAt := now));
      db := db[key := found.value];
    }

    /** Stores a record, or deletes what its key held when it may not or cannot be stored; a newer record under the key
        makes the write do nothing. `quota1` and `quota2` tell
        whether the first and the second write exceed the quota; such a transaction changes nothing. */
    method Set(key: Key, record: Record, admitted: bool, recovers: bool, quota1: bool, quota2: bool)
      returns (stored: bool, ghost between: map<Key, Record>, ghost order: seq<Key>, ghost halved: seq<Key>)
      requires record.namespace == c.namespace && record.version == Some(c.schema)
      modifies this
      ensures FutureSpared(old(db), db, c)
      ensures stored ==> Written(between, db, key, record, order, c) && FutureSpared(old(db), between, c)
      ensures var refused := c.limits.maxEntries == Some(0) || c.limits.maxBytes == Some(0)
                             || !Fits(0, record.size, c.limits) || !admitted;
              && (if refused || !quota1 || !recovers then between == old(db) else Recovered(old(db), between, halved, c))
              && (stored <==> !refused && (quota1 ==> recovers && between != old(db) && !quota2)
                              && !IsFutureAt(old(db), key, c))
              && (!stored ==> db == if refused then Deleted(old(db), key, c) else between)
    {
      stored, between, order, halved := false, db, [], [];
      var refused := c.limits.maxEntries == Some(0) || c.limits.maxBytes == Some(0)
                     || (c.limits.maxBytes.Some? && record.size > c.limits.maxBytes.value) || !admitted;
      if refused {
        Delete(key);
        return;
      }
      if !quota1 {
        stored, order := WriteRecord(key, record);
        return;
      }
      if recovers {
        ghost var was := db;
        var deleted;
        deleted, halved := RecoverQuota();
        between := db;
        if deleted && !quota2 {
          stored, order := WriteRecord(key, record);
          SparedTwice(was, between, db, c);
        }
      }
    }

    /** Visits the records of the namespace in key order and deletes junk and matching ones, up to a number of them. */
    method Visit(keys: seq<Key>, sweep: Sweep, maxRemovals: Option<nat>) returns (scanned: nat, removed: nat,
                 hasMore: bool)
      requires Distinct(keys) && forall k | k in keys :: k in db
      requires maxRemovals.Some? ==> maxRemovals.value > 0
      modifies this
      ensures scanned <= |keys| && FutureSpared(old(db), db, c)
      ensures db == old(db) - RemovableIn(Elements(keys[..scanned]), old(db), sweep, c)
      ensures removed == |RemovableIn(Elements(keys[..scanned]), old(db), sweep, c)|
      ensures maxRemovals.Some? ==> removed <= maxRemovals.value
      ensures hasMore <==> maxRemovals == Some(removed)
      ensures !hasMore ==> scanned == |keys|
    {
      ghost var was, gone := db, RemovableIn({}, db, sweep, c);
      scanned, removed, hasMore := 0, 0, false;
      NothingRemovable(keys, was, sweep, c);
      hide Elements, RemovableIn, Removable, FutureSpared, Distinct;
      while scanned < |keys| && !hasMore
        invariant scanned <= |keys| && gone == RemovableIn(Elements(keys[..scanned]), was, sweep, c)
        invariant db == was - gone && removed == |gone|
        invariant hasMore <==> maxRemovals == Some(removed)
        invariant maxRemovals.Some? ==> removed <= maxRemovals.value
      {
        RemovableMore(keys, scanned, was, gone, sweep, c);
        var removes := VisitRecord(keys[scanned], sweep);
        if removes {
          MinusMore(was, gone, keys[scanned]);
          removed := removed + 1;
          gone := gone + {keys[scanned]};
        }
        scanned := scanned + 1;
        hasMore := maxRemovals == Some(removed);
      }
      Spared(was, keys, scanned, sweep, c);
    }

    method VisitRecord(key: Key, sweep: Sweep) returns (removes: bool)
      modifies this
      ensures removes == Removable(old(db), key, sweep, c) && db == if removes then old(db) - {key} else old(db)
    {
      removes := Removable(db, key, sweep, c);
      if removes {
        db := db - {key};
      }
    }
  }

  // ---------- Helpers of the transactions ----------

  lemma NothingRemovable(keys: seq<Key>, was: map<Key, Record>, sweep: Sweep, c: Config)
    ensures RemovableIn({}, was, sweep, c) == RemovableIn(Elements(keys[..0]), was, sweep, c) == {} && was - {} == was
  {
  }

  lemma EvictionsStep(sizes: seq<nat>, i: nat, total: nat, l: Limits)
    requires i < |sizes| && !Fits(|sizes| - i, total, l)
    ensures Evictions(sizes[i..], total, l)
         == 1 + Evictions(sizes[i + 1..], if total > sizes[i] then total - sizes[i] else 0, l)
  {
  }

  lemma EvictionsDone(sizes: seq<nat>, i: nat, total: nat, l: Limits)
    requires i == |sizes| || (i < |sizes| && Fits(|sizes| - i, total, l))
    ensures Evictions(sizes[i..], total, l) == 0
  {
  }

  lemma MinusMore(db: map<Key, Record>, gone: set<Key>, key: Key)
    ensures db - gone - {key} == db - (gone + {key})
  {
  }

  lemma RemovableMore(keys: seq<Key>, i: nat, was: map<Key, Record>, gone: set<Key>, sweep: Sweep, c: Config)
    requires Distinct(keys) && i < |keys| && gone == RemovableIn(Elements(keys[..i]), was, sweep, c)
    ensures var next := RemovableIn(Elements(keys[..i + 1]), was, sweep, c);
            && next == (if Removable(was, keys[i], sweep, c) then gone + {keys[i]} else gone)
            && keys[i] !in gone
            && Removable(was - gone, keys[i], sweep, c) == Removable(was, keys[i], sweep, c)
  {
  }

  lemma Spared(was: map<Key, Record>, keys: seq<Key>, scanned: nat, sweep: Sweep, c: Config)
    requires scanned <= |keys|
    ensures FutureSpared(was, was - RemovableIn(Elements(keys[..scanned]), was, sweep, c), c)
  {
  }

  /** The records once junk outside `rest` has been removed. */
  ghost function CleanBut(db: map<Key, Record>, rest: set<Key>, c: Config): map<Key, Record> {
    map k | k in db && (k in rest || !IsJunk(db, k, c)) :: db[k]
  }

  lemma CleanOne(db: map<Key, Record>, rest: set<Key>, key: Key, c: Config)
    requires key in rest && rest <= db.Keys
    ensures CleanBut(db, rest - {key}, c)
         == if IsJunk(db, key, c) then CleanBut(db, rest, c) - {key} else CleanBut(db, rest, c)
  {
  }

  lemma SortedNothing(db: map<Key, Record>, newest: Option<Key>)
    ensures Sorted([], db, newest)
  {
  }

  lemma SortedKnown(order: seq<Key>, db: map<Key, Record>, newest: Option<Key>)
    requires Sorted(order, db, newest)
    ensures Known(order, db)
  {
  }

  lemma ElementsMore(s: seq<Key>, i: nat)
    requires i < |s|
    ensures Elements(s[..i + 1]) == Elements(s[..i]) + {s[i]}
  {
  }

  /** Current records are neither junk nor newer. */
  lemma OrderInside(order: seq<Key>, db: map<Key, Record>, newest: Option<Key>, c: Config)
    requires IsOrder(order, db, newest, c)
    ensures Known(order, db)
    ensures forall i | 0 <= i < |order| :: order[i] in Clean(db, c) && Clean(db, c)[order[i]] == db[order[i]]
    ensures forall i | 0 <= i < |order| :: !IsFutureAt(db, order[i], c)
  {
    forall i | 0 <= i < |order| ensures IsCurrent(db, order[i], c) {
      assert order[i] in order;
    }
  }

  lemma PrefixCurrent(order: seq<Key>, db: map<Key, Record>, newest: Option<Key>, d: nat, c: Config)
    requires IsOrder(order, db, newest, c) && d <= |order|
    ensures forall k | k in Elements(order[..d]) :: !IsFutureAt(db, k, c)
  {
    OrderInside(order, db, newest, c);
  }

  lemma WrittenSpares(was: map<Key, Record>, now: map<Key, Record>, key: Key, record: Record, order: seq<Key>,
                      c: Config)
    requires Written(was, now, key, record, order, c)
    ensures FutureSpared(was, now, c)
  {
    var put := was[key := record];
    if !IsFutureAt(was, key, c) && !Unlimited(c.limits) {
      PrefixCurrent(order, put, Some(key), Evictions(Sizes(order, put), Total(Sizes(order, put)), c.limits), c);
    }
    hide Evictions, Total, Sizes, IsOrder, Elements;
  }

  lemma RecoveredSpares(was: map<Key, Record>, now: map<Key, Record>, order: seq<Key>, c: Config)
    requires Recovered(was, now, order, c)
    ensures FutureSpared(was, now, c) && now.Keys <= was.Keys && (now != was ==> now.Keys != was.Keys)
  {
    PrefixCurrent(order, was, None, Half(|order|), c);
    assert now.Keys == was.Keys ==> now == was;
    hide IsOrder, Elements;
  }

  lemma SparedTwice(was: map<Key, Record>, between: map<Key, Record>, now: map<Key, Record>, c: Config)
    requires FutureSpared(was, between, c) && FutureSpared(between, now, c)
    ensures FutureSpared(was, now, c)
  {
  }

  lemma Smaller(was: map<Key, Record>, now: map<Key, Record>)
    requires now.Keys <= was.Keys && (now != was ==> now.Keys != was.Keys)
    ensures now != was <==> |now| != |was|
  {
    assert |now| == |now.Keys| && |was| == |was.Keys|;
    if now != was {
      assert was.Keys == now.Keys + (was.Keys - now.Keys);
      assert was.Keys - now.Keys != {};
    }
  }

  /** Quota recovery leaves half of the current records, rounded down: each that goes was used no later than each that
      stays. Everything else it removes is junk, and it changes no record. */
  lemma RecoveryHalves(was: map<Key, Record>, now: map<Key, Record>, order: seq<Key>, c: Config)
    requires Recovered(was, now, order, c)
    ensures CurrentKeys(now, c) == Elements(order[Half(|order|)..]) && |CurrentKeys(now, c)| == |CurrentKeys(was, c)| / 2
    ensures forall k | k in now :: k in was && now[k] == was[k] && !IsJunk(was, k, c)
    ensures forall k | k in was && k !in now && !IsJunk(was, k, c) ::
              IsCurrent(was, k, c) && UsedBefore(k, was, now, None, c)
  {
    var d := Half(|order|);
    KeptAreCurrent(was, order, None, d, c);
    OrderCounts(was, order, None, d, c);
    forall k | k in was && k !in now && !IsJunk(was, k, c)
      ensures IsCurrent(was, k, c) && UsedBefore(k, was, now, None, c)
    {
      assert k in Elements(order[..d]);
      EvictedUsedBefore(was, now, None, order, d, c, k);
    }
    hide IsOrder, Elements, UsedBefore, IsCurrent, CurrentKeys;
  }

  lemma OrderCounts(was: map<Key, Record>, order: seq<Key>, newest: Option<Key>, d: nat, c: Config)
    requires IsOrder(order, was, newest, c) && d <= |order|
    ensures |CurrentKeys(was, c)| == |order| && |Elements(order[d..])| == |order| - d
  {
    SortedDistinct(order, was, newest);
    ElementsCount(order);
    ElementsCount(order[d..]);
    assert CurrentKeys(was, c) == Elements(order);
  }

  lemma SortedDistinct(order: seq<Key>, was: map<Key, Record>, newest: Option<Key>)
    requires Sorted(order, was, newest)
    ensures Distinct(order)
  {
  }

  lemma {:induction false} ElementsCount(s: seq<Key>)
    requires Distinct(s)
    ensures |Elements(s)| == |s|
  {
    if s != [] {
      var front := s[..|s| - 1];
      ElementsCount(front);
      assert Elements(s) == Elements(front) + {s[|s| - 1]};
    }
  }
}
