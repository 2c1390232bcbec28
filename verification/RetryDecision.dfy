/** How the retry plugin turns delays of any kind into a decision. */
module RetryDecision {
  import opened Collections

  /** A JavaScript number; rounding is not modelled. */
  datatype Num = Finite(value: real) | PosInf | NegInf | NaN

  predicate Greater(a: Num, b: real) {
    a.PosInf? || (a.Finite? && a.value > b)
  }

  datatype Jitter = NoJitter | SomeJitter

  /** `maxElapsedTime` is None when it is infinite. */
  datatype Options = Options(retries: nat, maxDelay: real, maxElapsedTime: Option<real>, jitter: Jitter, observed: bool)
  {
    predicate Normalized() {
      maxDelay >= 0.0 && (maxElapsedTime.Some? ==> maxElapsedTime.value >= 0.0)
    }
  }

  /** What a decision depends on: the server's wish, the configured delay, what a jitter makes of the base delay,
      and the time since the request started. */
  datatype Question = Question(serverDelay: Option<Num>, configured: Num, jittered: Num, elapsed: real)

  function Distance(a: real, b: real): real {
    if a <= b then b - a else a - b
  }

  /** Of all delays from zero to `maxDelay`, the one closest to what is wished for; for NaN none. */
  ghost predicate Closest(d: real, wish: Num, maxDelay: real) {
    && 0.0 <= d <= maxDelay
    && match wish
       case Finite(v) => forall x: real | 0.0 <= x <= maxDelay :: Distance(d, v) <= Distance(x, v)
       case PosInf => d == maxDelay
       case _ => d == 0.0
  }

  lemma ClosestIsOne(a: real, b: real, wish: Num, maxDelay: real)
    requires Closest(a, wish, maxDelay) && Closest(b, wish, maxDelay)
    ensures a == b
  {
    if wish.Finite? {
      assert Distance(a, wish.value) <= Distance(b, wish.value) <= Distance(a, wish.value);
      var mid := (a + b) / 2.0;
      assert Distance(a, wish.value) <= Distance(mid, wish.value);
    }
  }

  function NormalizeDelay(delay: Num, maxDelay: real): (d: real)
    requires maxDelay >= 0.0
    ensures Closest(d, delay, maxDelay)
  {
    match delay
    case Finite(v) => if v < 0.0 then 0.0 else if v < maxDelay then v else maxDelay
    case PosInf => maxDelay
    case _ => 0.0
  }

  function BaseDelay(q: Question, o: Options): real
    requires o.Normalized()
  {
    NormalizeDelay(if q.serverDelay.Some? then q.serverDelay.value else q.configured, o.maxDelay)
  }

  /** The decision with its shortcut: without jitter, time limit and observer the base delay is granted as it is. */
  function Decide(q: Question, o: Options): Option<real>
    requires o.Normalized()
  {
    if q.serverDelay.Some? && Greater(q.serverDelay.value, o.maxDelay) then None
    else if (q.serverDelay.Some? || o.jitter.NoJitter?) && o.maxElapsedTime.None? && !o.observed then Some(BaseDelay(q, o))
    else Complete(q, o)
  }

  function Complete(q: Question, o: Options): Option<real>
    requires o.Normalized()
  {
    var base := BaseDelay(q, o);
    var jittered := if q.serverDelay.Some? || o.jitter.NoJitter? then Finite(base) else q.jittered;
    var delay := NormalizeDelay(jittered, o.maxDelay);
    if o.maxElapsedTime.Some? && (q.elapsed >= o.maxElapsedTime.value || q.elapsed + delay > o.maxElapsedTime.value)
    then None
    else Some(delay)
  }

  /** The shortcut agrees with the long way: an observer, which never changes a decision, may force either. */
  lemma ShortcutAgrees(q: Question, o: Options)
    requires o.Normalized()
    ensures Decide(q, o) == Decide(q, o.(observed := true))
  {
  }

  /** What a delay is asked for: by the server, or else by the configuration, with its jitter if there is one. */
  function Wish(q: Question, o: Options): Num {
    if q.serverDelay.Some? then q.serverDelay.value else if o.jitter.NoJitter? then q.configured else q.jittered
  }

  /** Exactly when a retry is granted, and after which delay: the one closest to the wish that `maxDelay` allows. A server
      that asks for more than `maxDelay` gets no retry, and neither does a request whose delay would end after
      `maxElapsedTime`. */
  lemma GrantedExactly(q: Question, o: Options, d: real)
    requires o.Normalized() && q.elapsed >= 0.0 && Closest(d, Wish(q, o), o.maxDelay)
    ensures Decide(q, o)
            == if && (match q.serverDelay
                      case Some(Finite(v)) => v <= o.maxDelay
                      case Some(PosInf) => false
                      case _ => true)
                  && (o.maxElapsedTime.Some? ==>
                        q.elapsed < o.maxElapsedTime.value && q.elapsed + d <= o.maxElapsedTime.value)
               then Some(d) else None
  {
    ClosestIsOne(d, NormalizeDelay(Wish(q, o), o.maxDelay), Wish(q, o), o.maxDelay);
    var base := NormalizeDelay(Wish(q, o), o.maxDelay);
    if q.serverDelay.Some? || o.jitter.NoJitter? {
      Fixed(base, o.maxDelay);
      ClosestIsOne(base, NormalizeDelay(Finite(base), o.maxDelay), Finite(base), o.maxDelay);
    }
    hide Closest;
  }

  /** A delay within bounds is its own closest one. */
  lemma Fixed(base: real, maxDelay: real)
    requires 0.0 <= base <= maxDelay
    ensures Closest(base, Finite(base), maxDelay)
  {
  }
}
