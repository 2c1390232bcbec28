/** Records of the persistent cache: their disposition, their sizes, and the order in which they are evicted. */
module IndexedDbRecords {
  import opened Collections

  /** Storage keys and namespaces are only ever compared, so they are numbered. */
  type Key = nat

  /** `version` is None when it cannot be read, `size` is the size read or estimated, `expiresAt` None never comes, and
      `wellFormed` stands for the checks of the other fields. */
  datatype Record = Record(namespace: nat, version: Option<nat>, wellFormed: bool, accessedAt: real, size: nat,
                           expiresAt: Option<real>, tags: set<nat>)

  datatype Disposition = Malformed | Older | Future | Current

  function Classify(r: Record, namespace: nat, schema: nat): Disposition {
    match r.version
    case None => Malformed
    case Some(v) =>
      if v > schema then Future
      else if v < schema then Older
      else if r.wellFormed && r.namespace == namespace then Current else Malformed
  }

  predicate IsFuture(r: Record, schema: nat) {
    r.version.Some? && r.version.value > schema
  }

  // ---------- Sizes ----------

  /** Saturating addition. */
  function AddSize(total: nat, size: nat): (t: nat)
    requires total <= MAX_SAFE_INTEGER
    ensures t <= MAX_SAFE_INTEGER
  {
    if size >= MAX_SAFE_INTEGER - total then MAX_SAFE_INTEGER else total + size
  }

  function Total(sizes: seq<nat>): (t: nat)
    ensures t <= MAX_SAFE_INTEGER
  {
    if sizes == [] then 0 else AddSize(Total(sizes[..|sizes| - 1]), sizes[|sizes| - 1])
  }

  function Sum(sizes: seq<nat>): nat {
    if sizes == [] then 0 else Sum(sizes[..|sizes| - 1]) + sizes[|sizes| - 1]
  }

  /** The saturating total is the sum exactly when the sum is a safe integer. */
  lemma {:induction false} TotalExact(sizes: seq<nat>)
    ensures Total(sizes) == if Sum(sizes) <= MAX_SAFE_INTEGER then Sum(sizes) else MAX_SAFE_INTEGER
    ensures Total(sizes) == Sum(sizes) <==> Sum(sizes) <= MAX_SAFE_INTEGER
  {
    if sizes != [] {
      TotalExact(sizes[..|sizes| - 1]);
    }
  }

  lemma {:induction false} SumSplit(sizes: seq<nat>, d: nat)
    requires d <= |sizes|
    ensures Sum(sizes) == Sum(sizes[..d]) + Sum(sizes[d..])
  {
    if d == |sizes| {
      assert sizes[..d] == sizes && sizes[d..] == [];
    } else {
      SumSplit(sizes[..|sizes| - 1], d);
      assert sizes[..|sizes| - 1][..d] == sizes[..d];
      assert sizes[..|sizes| - 1][d..] == sizes[d..][..|sizes[d..]| - 1];
    }
  }

  // ---------- Limits ----------

  /** None stands for no limit. */
  datatype Limits = Limits(maxEntries: Option<nat>, maxBytes: Option<nat>)

  predicate Fits(entries: nat, bytes: nat, l: Limits) {
    (l.maxEntries.Some? ==> entries <= l.maxEntries.value) && (l.maxBytes.Some? ==> bytes <= l.maxBytes.value)
  }

  /** How many records go, from the front, with the running total the store keeps. */
  function Evictions(sizes: seq<nat>, total: nat, l: Limits): (d: nat)
    ensures d <= |sizes|
  {
    if sizes == [] || Fits(|sizes|, total, l) then 0
    else 1 + Evictions(sizes[1..], if total > sizes[0] then total - sizes[0] else 0, l)
  }

  /** What the running total says is left once the first `e` records are gone. */
  function Left(sizes: seq<nat>, e: nat, total: nat): nat
    requires e <= |sizes|
  {
    if total > Sum(sizes[..e]) then total - Sum(sizes[..e]) else 0
  }

  /** Records go until the limits hold by the running total, and not one more. */
  lemma {:induction false} EvictionsFirst(sizes: seq<nat>, total: nat, l: Limits)
    ensures var d := Evictions(sizes, total, l);
            && (d < |sizes| ==> Fits(|sizes| - d, Left(sizes, d, total), l))
            && forall e | 0 <= e < d :: !Fits(|sizes| - e, Left(sizes, e, total), l)
  {
    assert sizes[..0] == [];
    if sizes != [] && !Fits(|sizes|, total, l) {
      var rest, later := sizes[1..], if total > sizes[0] then total - sizes[0] else 0;
      EvictionsFirst(rest, later, l);
      var d := Evictions(rest, later, l);
      forall e | 0 <= e <= |rest| ensures Left(rest, e, later) == Left(sizes, e + 1, total) {
        LeftStep(sizes, e, total);
      }
      forall e | 0 <= e < d + 1 ensures !Fits(|sizes| - e, Left(sizes, e, total), l) {
        if e > 0 {
          assert !Fits(|rest| - (e - 1), Left(rest, e - 1, later), l);
        }
      }
    }
  }

  lemma LeftStep(sizes: seq<nat>, e: nat, total: nat)
    requires sizes != [] && e < |sizes|
    ensures Left(sizes[1..], e, if total > sizes[0] then total - sizes[0] else 0) == Left(sizes, e + 1, total)
  {
    SumSplit(sizes[..e + 1], 1);
    assert sizes[..e + 1][1..] == sizes[1..][..e] && sizes[..e + 1][..1] == [sizes[0]];
    SumOne(sizes[0]);
  }

  lemma SumOne(size: nat)
    ensures Sum([size]) == size
  {
    assert [size][..0] == [];
  }

  lemma PrefixSums(sizes: seq<nat>, d: nat, e: nat)
    requires d <= e <= |sizes|
    ensures Sum(sizes[..d]) <= Sum(sizes[..e]) <= Sum(sizes)
  {
    SumSplit(sizes, e);
    SumSplit(sizes[..e], d);
    assert sizes[..e][..d] == sizes[..d];
  }

  /** The running total takes what is left after `e` evictions for little enough, and it is not. */
  ghost predicate Miscounted(sizes: seq<nat>, e: nat, maxBytes: nat)
    requires e <= |sizes|
  {
    Total(sizes) <= Sum(sizes[..e]) + maxBytes < Sum(sizes)
  }

  /** Nothing less than what is evicted would have been enough. What stays fits both limits exactly when at no point of
      the order where the number of records is small enough the running total is wrong about the bytes; when all sizes
      add up to a safe integer, it never is. */
  lemma EvictionsExact(sizes: seq<nat>, l: Limits)
    ensures var d := Evictions(sizes, Total(sizes), l);
            && (forall e | 0 <= e < d :: !Fits(|sizes| - e, Sum(sizes[e..]), l))
            && (Fits(|sizes| - d, Sum(sizes[d..]), l) <==> CountedRight(sizes, l))
    ensures Sum(sizes) <= MAX_SAFE_INTEGER ==> CountedRight(sizes, l)
  {
    TotalExact(sizes);
    EvictionsFirst(sizes, Total(sizes), l);
    var n, d := |sizes|, Evictions(sizes, Total(sizes), l);
    hide Total, Evictions, Sum;
    forall e | 0 <= e <= n ensures Sum(sizes[e..]) == Sum(sizes) - Sum(sizes[..e]) {
      SumSplit(sizes, e);
    }
    forall e | 0 <= e < d ensures !Fits(n - e, Sum(sizes[e..]), l) {
      assert Left(sizes, e, Total(sizes)) <= Sum(sizes[e..]);
      assert !Fits(n - e, Left(sizes, e, Total(sizes)), l);
    }
    assert sizes[..n] == sizes;
    if d < n && !Fits(n - d, Sum(sizes[d..]), l) {
      assert Fits(n - d, 0, l) && Miscounted(sizes, d, l.maxBytes.value);
    } else {
      forall e | 0 <= e < n && Fits(n - e, 0, l) && l.maxBytes.Some?
        ensures !Miscounted(sizes, e, l.maxBytes.value)
      {
        if Fits(n - e, Left(sizes, e, Total(sizes)), l) {
          PrefixSums(sizes, d, e);
        }
      }
    }
  }

  /** `Fits` with no bytes asks for the number of records only. */
  ghost predicate CountedRight(sizes: seq<nat>, l: Limits) {
    forall e | 0 <= e < |sizes| && Fits(|sizes| - e, 0, l) && l.maxBytes.Some? ::
      !Miscounted(sizes, e, l.maxBytes.value)
  }

  /** Without a limit for their number, and above safe integers: the records that stay exceed `maxBytes` exactly when
      some sum of sizes from the front of the order is at least MAX_SAFE_INTEGER - maxBytes and less than what would
      have to go. */
  lemma OverflowExactly(sizes: seq<nat>, maxBytes: nat)
    requires Sum(sizes) > MAX_SAFE_INTEGER
    ensures var d := Evictions(sizes, Total(sizes), Limits(None, Some(maxBytes)));
            Sum(sizes[d..]) > maxBytes
            <==> exists e | 0 <= e < |sizes| :: MAX_SAFE_INTEGER - maxBytes <= Sum(sizes[..e]) < Sum(sizes) - maxBytes
  {
    var l := Limits(None, Some(maxBytes));
    EvictionsExact(sizes, l);
    TotalExact(sizes);
    hide Evictions, Total, Sum;
    forall e | 0 <= e < |sizes|
      ensures Miscounted(sizes, e, maxBytes)
              <==> MAX_SAFE_INTEGER - maxBytes <= Sum(sizes[..e]) < Sum(sizes) - maxBytes
    {
    }
    assert CountedRight(sizes, l) <==> forall e | 0 <= e < |sizes| :: !Miscounted(sizes, e, maxBytes);
  }

  /** With a limit for the number of records only, as many stay as it allows. */
  lemma {:induction false} EntriesExactly(sizes: seq<nat>, total: nat, maxEntries: nat)
    ensures Evictions(sizes, total, Limits(Some(maxEntries), None))
         == if |sizes| <= maxEntries then 0 else |sizes| - maxEntries
  {
    if |sizes| > maxEntries {
      EntriesExactly(sizes[1..], if total > sizes[0] then total - sizes[0] else 0, maxEntries);
    }
  }

  /** A last record that fits alone is never evicted, whatever the sizes. */
  lemma LastStays(sizes: seq<nat>, l: Limits)
    requires sizes != [] && Fits(1, sizes[|sizes| - 1], l)
    ensures Evictions(sizes, Total(sizes), l) < |sizes|
  {
    var e := |sizes| - 1;
    TotalExact(sizes);
    EvictionsFirst(sizes, Total(sizes), l);
    assert Fits(|sizes| - e, Left(sizes, e, Total(sizes)), l);
    hide Evictions, Total;
  }

  // ---------- Order of eviction ----------

  /** The record just written comes last; the others by their last access, then by key. */
  predicate Before(a: Key, b: Key, at: map<Key, Record>, newest: Option<Key>)
    requires a in at && b in at
  {
    if newest == Some(a) then false
    else if newest == Some(b) then true
    else at[a].accessedAt < at[b].accessedAt || (at[a].accessedAt == at[b].accessedAt && a < b)
  }

  ghost predicate Known(order: seq<Key>, at: map<Key, Record>) {
    forall i | 0 <= i < |order| :: order[i] in at
  }

  ghost predicate Sorted(order: seq<Key>, at: map<Key, Record>, newest: Option<Key>) {
    && Known(order, at)
    && forall i, j | 0 <= i < j < |order| :: Before(order[i], order[j], at, newest)
  }

  function Insert(order: seq<Key>, key: Key, at: map<Key, Record>, newest: Option<Key>): seq<Key>
    requires Known(order, at) && key in at
  {
    if order == [] || Before(order[|order| - 1], key, at, newest) then order + [key]
    else Insert(order[..|order| - 1], key, at, newest) + [order[|order| - 1]]
  }

  lemma {:induction false} InsertSorts(order: seq<Key>, key: Key, at: map<Key, Record>, newest: Option<Key>)
    requires Sorted(order, at, newest) && key in at && key !in order
    ensures var n := Insert(order, key, at, newest);
            && Sorted(n, at, newest) && |n| == |order| + 1 && forall k :: k in n <==> k in order || k == key
  {
    if order != [] && !Before(order[|order| - 1], key, at, newest) {
      var front, last := order[..|order| - 1], order[|order| - 1];
      assert order == front + [last];
      InsertSorts(front, key, at, newest);
      var n := Insert(front, key, at, newest);
      InFront(order, at, newest);
      assert Before(key, last, at, newest);
      forall k | k in n ensures k in at && Before(k, last, at, newest) {
      }
      AppendSorted(n, last, at, newest);
    } else {
      forall k | k in order ensures k in at && Before(k, key, at, newest) {
        if k != order[|order| - 1] {
          InFront(order, at, newest);
          assert order == order[..|order| - 1] + [order[|order| - 1]];
        }
      }
      AppendSorted(order, key, at, newest);
    }
  }

  lemma InFront(order: seq<Key>, at: map<Key, Record>, newest: Option<Key>)
    requires Sorted(order, at, newest) && order != []
    ensures forall k | k in order[..|order| - 1] :: k in at && Before(k, order[|order| - 1], at, newest)
  {
  }

  lemma AppendSorted(order: seq<Key>, key: Key, at: map<Key, Record>, newest: Option<Key>)
    requires Sorted(order, at, newest) && key in at
    requires forall k | k in order :: k in at && Before(k, key, at, newest)
    ensures Sorted(order + [key], at, newest)
    ensures forall k :: k in order + [key] <==> k in order || k == key
  {
  }

  /** The order of eviction leaves no choice. */
  lemma {:induction false} SortedUnique(a: seq<Key>, b: seq<Key>, at: map<Key, Record>, newest: Option<Key>)
    requires Sorted(a, at, newest) && Sorted(b, at, newest) && forall k :: k in a <==> k in b
    ensures a == b
  {
    assert (a != [] ==> a[0] in a) && (b != [] ==> b[0] in b);
    if a != [] && b != [] {
      InFront(a, at, newest);
      InFront(b, at, newest);
      AllButLast(a);
      AllButLast(b);
      assert a[|a| - 1] in b && b[|b| - 1] in a;
      assert a[|a| - 1] == b[|b| - 1];
      hide Sorted, Before;
      FrontSorted(a, at, newest);
      FrontSorted(b, at, newest);
      var x, y := a[..|a| - 1], b[..|b| - 1];
      forall k ensures k in x <==> k in y {
        assert k in x <==> k in a && k != a[|a| - 1];
        assert k in y <==> k in b && k != b[|b| - 1];
      }
      SortedUnique(a[..|a| - 1], b[..|b| - 1], at, newest);
    }
  }

  lemma FrontSorted(a: seq<Key>, at: map<Key, Record>, newest: Option<Key>)
    requires Sorted(a, at, newest) && a != []
    ensures Sorted(a[..|a| - 1], at, newest)
    ensures forall k :: k in a[..|a| - 1] <==> k in a && k != a[|a| - 1]
  {
  }

  lemma AllButLast(a: seq<Key>)
    requires a != []
    ensures forall k :: k in a <==> k in a[..|a| - 1] || k == a[|a| - 1]
  {
  }

  /** Beyond safe integers the running total is too small: two records of the largest size pass for one. */
  lemma OverflowExceedsLimit()
    ensures var sizes, l := [MAX_SAFE_INTEGER, MAX_SAFE_INTEGER], Limits(None, Some(MAX_SAFE_INTEGER));
            Evictions(sizes, Total(sizes), l) == 0 && !Fits(|sizes|, Sum(sizes), l)
  {
    var sizes := [MAX_SAFE_INTEGER, MAX_SAFE_INTEGER];
    assert sizes[..1] == [MAX_SAFE_INTEGER] && sizes[..1][..0] == [];
    assert Sum(sizes[..1]) == MAX_SAFE_INTEGER && Sum(sizes) == Sum(sizes[..1]) + sizes[1];
    TotalExact(sizes);
  }
}
