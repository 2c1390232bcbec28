/** Small shared vocabulary: options, flattening, filtering and counting. */
module Collections {

  /** The largest integer below which a number represents every integer exactly. */
  const MAX_SAFE_INTEGER: nat := 9007199254740991

  datatype Option<+T> = None | Some(value: T)

  /** One logical request as one installation of a plugin sees it. */
  datatype Ticket = Ticket(installation: nat, request: nat)

  /** The concatenation of a sequence of sequences. */
  function Flatten<T>(pieces: seq<seq<T>>): seq<T> {
    if pieces == [] then [] else pieces[0] + Flatten(pieces[1..])
  }

  lemma {:induction false} FlattenAppend<T>(pieces: seq<seq<T>>, last: seq<T>)
    ensures Flatten(pieces + [last]) == Flatten(pieces) + last
  {
    if pieces == [] {
      assert pieces + [last] == [last];
      assert Flatten([last]) == last + Flatten([]);
    } else {
      FlattenAppend(pieces[1..], last);
      assert (pieces + [last])[1..] == pieces[1..] + [last];
    }
  }

  /** No element occurs twice. */
  ghost predicate Distinct<T(!new)>(s: seq<T>) {
    forall i, j :: 0 <= i < j < |s| ==> s[i] != s[j]
  }

  /** The elements of `s` that lie outside `drop`, in order. */
  function Without<T(==)>(s: seq<T>, drop: set<T>): seq<T> {
    if s == [] then []
    else
      var rest := Without(s[..|s| - 1], drop);
      if s[|s| - 1] in drop then rest else rest + [s[|s| - 1]]
  }

  lemma WithoutLast<T>(s: seq<T>, last: T, drop: set<T>)
    ensures Without(s + [last], drop) == if last in drop then Without(s, drop) else Without(s, drop) + [last]
  {
  }

  lemma {:induction false} WithoutAppend<T>(a: seq<T>, b: seq<T>, drop: set<T>)
    ensures Without(a + b, drop) == Without(a, drop) + Without(b, drop)
  {
    if b == [] {
      assert a + b == a;
    } else {
      var last := b[|b| - 1];
      assert a + b == a + b[..|b| - 1] + [last];
      WithoutAppend(a, b[..|b| - 1], drop);
      WithoutLast(a + b[..|b| - 1], last, drop);
    }
  }

  lemma {:induction false} WithoutMore<T>(s: seq<T>, drop: set<T>, more: set<T>)
    ensures Without(s, drop + more) == Without(Without(s, drop), more)
  {
    if s != [] {
      WithoutMore(s[..|s| - 1], drop, more);
      WithoutLast(Without(s[..|s| - 1], drop), s[|s| - 1], more);
    }
  }

  lemma {:induction false} WithoutNone<T>(s: seq<T>, drop: set<T>)
    requires forall i | 0 <= i < |s| :: s[i] !in drop
    ensures Without(s, drop) == s
  {
    if s != [] {
      WithoutNone(s[..|s| - 1], drop);
    }
  }

  /** What stays is a selection of the original positions, in order. */
  lemma {:induction false} WithoutMembers<T>(s: seq<T>, drop: set<T>)
    ensures forall x :: x in Without(s, drop) <==> x in s && x !in drop
  {
    if s != [] {
      WithoutMembers(s[..|s| - 1], drop);
      assert s == s[..|s| - 1] + [s[|s| - 1]];
    }
  }

  lemma {:induction false} WithoutDistinct<T(!new)>(s: seq<T>, drop: set<T>)
    requires Distinct(s)
    ensures Distinct(Without(s, drop))
  {
    if s != [] {
      WithoutDistinct(s[..|s| - 1], drop);
      WithoutMembers(s[..|s| - 1], drop);
    }
  }

  /** `s` without its element at `k`. */
  function RemoveAt<T>(s: seq<T>, k: nat): (r: seq<T>)
    requires k < |s|
    ensures |r| == |s| - 1 && forall i | 0 <= i < |r| :: r[i] == if i < k then s[i] else s[i + 1]
  {
    s[..k] + s[k + 1..]
  }

  lemma {:induction false} WithoutOne<T>(s: seq<T>, k: nat)
    requires k < |s| && forall i | 0 <= i < |s| && i != k :: s[i] != s[k]
    ensures Without(s, {s[k]}) == RemoveAt(s, k)
  {
    var last := |s| - 1;
    if k == last {
      WithoutNone(s[..last], {s[k]});
      assert RemoveAt(s, k) == s[..last];
    } else {
      WithoutOne(s[..last], k);
      assert RemoveAt(s, k) == RemoveAt(s[..last], k) + [s[last]];
    }
  }
}
