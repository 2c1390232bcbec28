/** The attempt loop of the request pipeline, with the retry and the auth plugin as its retry hooks. */
module Lifecycle {
  import opened Collections
  import opened RetryDecision

  /** Responses and errors are only passed on. */
  type Response = nat
  type Error = nat

  datatype Call = Done(response: Response) | Threw(error: Error)

  datatype RetryWish = NoRetry | Wants(question: Question) | RetryThrows(error: Error)

  /** The auth hook leaves an error alone, or refreshes the token: in vain, successfully, or being aborted. */
  datatype AuthWish = NoRefresh | RefreshFails | Refreshes | RefreshThrows(error: Error)

  /** What the environment does in one round: the transport and its hooks, the processing of the response, error
      hooks that may throw, a fallback they may offer, the wishes of both retry hooks, and an aborted wait. An error
      stands for what error hooks and interceptors leave of it. */
  datatype Round = Round(transport: Call, process: Call, hookError: Option<Error>, fallback: Option<Response>,
                         retryWish: RetryWish, authWish: AuthWish, recovery: Call, waitError: Option<Error>)

  /** A wait before the next attempt; one that the retry hook grants comes with the time spent until then. */
  datatype Wait = Wait(delay: real, elapsed: Option<real>)

  datatype Decision = Stop | Retry(wait: Wait) | Fails(error: Error)

  datatype Exit = Returned(response: Response) | Failed(error: Error)

  /** How a request ended: after how many transport attempts, and with which waits between them. */
  datatype Trace = Trace(exit: Exit, attempts: nat, waits: seq<Wait>)

  // ---------- Decisions ----------

  function AskRetry(round: Round, attempt: nat, o: Options): Decision
    requires o.Normalized()
  {
    if attempt >= o.retries then Stop
    else
      match round.retryWish
      case NoRetry => Stop
      case Wants(q) => var d := Decide(q, o); if d.Some? then Retry(Wait(d.value, Some(q.elapsed))) else Stop
      case RetryThrows(e) => Fails(e)
  }

  function AskAuth(round: Round, refreshed: bool): Decision {
    if refreshed then Stop
    else
      match round.authWish
      case NoRefresh => Stop
      case RefreshFails => Stop
      case Refreshes => Retry(Wait(0.0, None))
      case RefreshThrows(e) => Fails(e)
  }

  /** A request is refreshed once at most, whatever comes of it. */
  function AuthMarks(round: Round, refreshed: bool): bool {
    refreshed || !round.authWish.NoRefresh?
  }

  /** Retry hooks are asked in order until one decides. */
  function Resolve(round: Round, attempt: nat, refreshed: bool, authFirst: bool, o: Options): (Decision, bool)
    requires o.Normalized()
  {
    if authFirst then
      var d := AskAuth(round, refreshed);
      (if d.Stop? then AskRetry(round, attempt, o) else d, AuthMarks(round, refreshed))
    else
      var d := AskRetry(round, attempt, o);
      if d.Stop? then (AskAuth(round, refreshed), AuthMarks(round, refreshed)) else (d, refreshed)
  }

  // ---------- The loop ----------

  /** The response of a round, or the error that reaches the error hooks. */
  function Attempt(round: Round): Call {
    if round.transport.Threw? then round.transport else round.process
  }

  /** What becomes of a failed request without another try: its fallback if error hooks offered one. */
  function GiveUp(round: Round, error: Error): Exit {
    if round.fallback.None? then Failed(error)
    else if round.recovery.Done? then Returned(round.recovery.response) else Failed(round.recovery.error)
  }

  /** How many more retries can be granted. */
  function Budget(attempt: nat, refreshed: bool, o: Options): nat {
    (if attempt < o.retries then o.retries - attempt else 0) + if refreshed then 0 else 1
  }

  /** A round ends the request, or is followed by another one after a delay. */
  datatype Outcome = Ends(exit: Exit, waits: seq<Wait>) | Again(wait: Wait, refreshed: bool)

  function Play(round: Round, attempt: nat, refreshed: bool, authFirst: bool, o: Options): Outcome
    requires o.Normalized()
  {
    match Attempt(round)
    case Done(response) => Ends(Returned(response), [])
    case Threw(error) =>
      if round.hookError.Some? then Ends(Failed(round.hookError.value), [])
      else
        var (d, marked) := Resolve(round, attempt, refreshed, authFirst, o);
        match d
        case Fails(e) => Ends(Failed(e), [])
        case Stop => Ends(GiveUp(round, error), [])
        case Retry(wait) =>
          if round.waitError.Some? then Ends(Failed(round.waitError.value), [wait]) else Again(wait, marked)
  }

  lemma RetryCosts(round: Round, attempt: nat, refreshed: bool, authFirst: bool, o: Options)
    requires o.Normalized()
    ensures var r := Play(round, attempt, refreshed, authFirst, o);
            r.Again? ==> Budget(attempt + 1, r.refreshed, o) < Budget(attempt, refreshed, o)
  {
  }

  function Rounds(script: nat -> Round, attempt: nat, refreshed: bool, authFirst: bool, o: Options): Trace
    requires o.Normalized()
    decreases Budget(attempt, refreshed, o)
  {
    RetryCosts(script(attempt), attempt, refreshed, authFirst, o);
    match Play(script(attempt), attempt, refreshed, authFirst, o)
    case Ends(exit, waits) => Trace(exit, 1, waits)
    case Again(wait, marked) =>
      var rest := Rounds(script, attempt + 1, marked, authFirst, o);
      Trace(rest.exit, rest.attempts + 1, [wait] + rest.waits)
  }

  // ---------- What every run guarantees ----------

  /** No wait is longer than `maxDelay`, none that the retry hook grants ends after `maxElapsedTime`, and a refreshed
      token is tried at once. */
  predicate WaitOk(w: Wait, o: Options) {
    && 0.0 <= w.delay <= o.maxDelay
    && (w.elapsed.None? ==> w.delay == 0.0)
    && (w.elapsed.Some? && o.maxElapsedTime.Some? ==>
          w.elapsed.value < o.maxElapsedTime.value && w.elapsed.value + w.delay <= o.maxElapsedTime.value)
  }

  ghost predicate Bounded(waits: seq<Wait>, o: Options) {
    forall i | 0 <= i < |waits| :: WaitOk(waits[i], o)
  }

  /** Whatever fails, in whatever order the hooks are asked: at most `retries + 2` transport attempts are made, no wait
      between them is longer than `maxDelay`, and none that the retry hook grants ends after `maxElapsedTime`. */
  lemma {:induction false} Terminates(script: nat -> Round, attempt: nat, refreshed: bool, authFirst: bool, o: Options)
    requires o.Normalized()
    ensures var t := Rounds(script, attempt, refreshed, authFirst, o);
            t.attempts <= Budget(attempt, refreshed, o) + 1 && Bounded(t.waits, o)
    decreases Budget(attempt, refreshed, o)
  {
    var r := Play(script(attempt), attempt, refreshed, authFirst, o);
    WaitBounded(script(attempt), attempt, refreshed, authFirst, o);
    RetryCosts(script(attempt), attempt, refreshed, authFirst, o);
    if r.Again? {
      Terminates(script, attempt + 1, r.refreshed, authFirst, o);
    }
    hide Play, Budget, WaitOk;
  }

  lemma WaitBounded(round: Round, attempt: nat, refreshed: bool, authFirst: bool, o: Options)
    requires o.Normalized()
    ensures var r := Play(round, attempt, refreshed, authFirst, o);
            Bounded(if r.Again? then [r.wait] else r.waits, o)
  {
  }

  function TotalDelay(waits: seq<Wait>): real {
    if waits == [] then 0.0 else TotalDelay(waits[..|waits| - 1]) + waits[|waits| - 1].delay
  }

  /** A clock that counts at least the waits already granted. */
  ghost predicate Clocked(waits: seq<Wait>) {
    forall i | 0 <= i < |waits| && waits[i].elapsed.Some? :: TotalDelay(waits[..i]) <= waits[i].elapsed.value
  }

  lemma {:induction false} TotalBounded(waits: seq<Wait>, o: Options)
    requires o.Normalized() && Bounded(waits, o) && Clocked(waits) && o.maxElapsedTime.Some?
    ensures TotalDelay(waits) <= o.maxElapsedTime.value
  {
    if waits != [] {
      var front, last := waits[..|waits| - 1], waits[|waits| - 1];
      forall i | 0 <= i < |front| && front[i].elapsed.Some? ensures TotalDelay(front[..i]) <= front[i].elapsed.value {
        assert front[..i] == waits[..i] && front[i] == waits[i];
      }
      TotalBounded(front, o);
      assert WaitOk(last, o);
    }
  }

  /** With such a clock, all waits of a request together stay within `maxElapsedTime`. */
  lemma WaitsWithinLimit(script: nat -> Round, authFirst: bool, o: Options)
    requires o.Normalized() && o.maxElapsedTime.Some?
    requires Clocked(Rounds(script, 0, false, authFirst, o).waits)
    ensures TotalDelay(Rounds(script, 0, false, authFirst, o).waits) <= o.maxElapsedTime.value
  {
    Terminates(script, 0, false, authFirst, o);
    TotalBounded(Rounds(script, 0, false, authFirst, o).waits, o);
    hide *;
  }

  /** Why a round fails: its transport throws, or else what processes the response does. */
  function Failure(round: Round): Option<Error> {
    if round.transport.Threw? then Some(round.transport.error)
    else if round.process.Threw? then Some(round.process.error) else None
  }

  /** How a request ends, by its last round: with the processed response; or with what error hooks throw, an aborted wait
      or a retry hook leaves; or else with the fallback that error hooks have offered, once recovered, or the failure. */
  ghost predicate EndsBy(last: Round, waited: bool, exit: Exit) {
    match Failure(last)
    case None => !waited && exit == Returned(last.process.response)
    case Some(error) =>
      if last.hookError.Some? then !waited && exit == Failed(last.hookError.value)
      else if waited then last.waitError.Some? && exit == Failed(last.waitError.value)
      else if last.retryWish.RetryThrows? || last.authWish.RefreshThrows? then
        exit == Recovered(last, error)
        || (last.retryWish.RetryThrows? && exit == Failed(last.retryWish.error))
        || (last.authWish.RefreshThrows? && exit == Failed(last.authWish.error))
      else exit == Recovered(last, error)
  }

  function Recovered(last: Round, error: Error): Exit {
    match last.fallback
    case None => Failed(error)
    case Some(_) =>
      match last.recovery
      case Done(response) => Returned(response)
      case Threw(e) => Failed(e)
  }

  /** Every round before the last one fails and leaves the request to be tried again; the last one decides. */
  lemma {:induction false} LastRoundDecides(script: nat -> Round, attempt: nat, refreshed: bool, authFirst: bool, o: Options)
    requires o.Normalized()
    ensures var t := Rounds(script, attempt, refreshed, authFirst, o);
            && t.attempts > 0 && t.attempts - 1 <= |t.waits| <= t.attempts
            && EndsBy(script(attempt + t.attempts - 1), |t.waits| == t.attempts, t.exit)
            && forall k | attempt <= k < attempt + t.attempts - 1 ::
                 Failure(script(k)).Some? && script(k).hookError.None? && script(k).waitError.None?
    decreases Budget(attempt, refreshed, o)
  {
    var r := Play(script(attempt), attempt, refreshed, authFirst, o);
    PlayEnds(script(attempt), attempt, refreshed, authFirst, o);
    RetryCosts(script(attempt), attempt, refreshed, authFirst, o);
    if r.Again? {
      LastRoundDecides(script, attempt + 1, r.refreshed, authFirst, o);
    }
    hide Play, Budget, EndsBy;
  }

  lemma PlayEnds(round: Round, attempt: nat, refreshed: bool, authFirst: bool, o: Options)
    requires o.Normalized()
    ensures match Play(round, attempt, refreshed, authFirst, o)
            case Ends(exit, waits) => |waits| <= 1 && EndsBy(round, |waits| == 1, exit)
            case Again(_, _) => Failure(round).Some? && round.hookError.None? && round.waitError.None?
  {
    hide Decide;
  }

  /** A failed round whose hooks do not throw is followed by another one if and only if the retry plugin grants one
      within its number of retries, or the token can be refreshed for the first time, and the wait is not aborted. When
      both would, the hook that is asked first decides. */
  lemma TriesAgainExactly(script: nat -> Round, attempt: nat, refreshed: bool, authFirst: bool, o: Options)
    requires o.Normalized() && Failure(script(attempt)).Some? && script(attempt).hookError.None?
    requires !script(attempt).retryWish.RetryThrows? && !script(attempt).authWish.RefreshThrows?
    ensures var round, t := script(attempt), Rounds(script, attempt, refreshed, authFirst, o);
            var retries := attempt < o.retries && round.retryWish.Wants? && Decide(round.retryWish.question, o).Some?;
            var refreshes := !refreshed && round.authWish.Refreshes?;
            && (t.attempts > 1 <==> (retries || refreshes) && round.waitError.None?)
            && (t.waits != [] <==> retries || refreshes)
            && (t.waits != [] ==>
                  t.waits[0] == if refreshes && (authFirst || !retries) then Wait(0.0, None)
                                else Wait(Decide(round.retryWish.question, o).value, Some(round.retryWish.question.elapsed)))
  {
    LastRoundDecides(script, attempt, refreshed, authFirst, o);
    var r := Play(script(attempt), attempt, refreshed, authFirst, o);
    if r.Again? {
      RetryCosts(script(attempt), attempt, refreshed, authFirst, o);
      LastRoundDecides(script, attempt + 1, r.refreshed, authFirst, o);
    }
    hide Decide, EndsBy;
  }

  /** What a retry hook throws when it is asked ends the request: the retry plugin is asked within its number of retries
      unless a first hook has decided, the auth plugin before the first refresh. */
  lemma ThrowingHookFails(script: nat -> Round, attempt: nat, refreshed: bool, authFirst: bool, o: Options)
    requires o.Normalized() && Failure(script(attempt)).Some? && script(attempt).hookError.None?
    ensures var round, t := script(attempt), Rounds(script, attempt, refreshed, authFirst, o);
            var idle := refreshed || round.authWish.NoRefresh? || round.authWish.RefreshFails?;
            var stops := attempt >= o.retries || round.retryWish.NoRetry?
                         || (round.retryWish.Wants? && Decide(round.retryWish.question, o).None?);
            && (round.retryWish.RetryThrows? && attempt < o.retries && (!authFirst || idle) ==>
                  t == Trace(Failed(round.retryWish.error), 1, []))
            && (round.authWish.RefreshThrows? && !refreshed && (authFirst || stops) ==>
                  t == Trace(Failed(round.authWish.error), 1, []))
  {
    hide Decide;
  }

  ghost predicate OnlyRetries(waits: seq<Wait>, from: nat) {
    forall i | from <= i < |waits| :: waits[i].elapsed.Some?
  }

  /** Once a request has refreshed its token, all its waits come from the retry plugin. */
  lemma {:induction false} NoSecondRefresh(script: nat -> Round, attempt: nat, authFirst: bool, o: Options)
    requires o.Normalized()
    ensures OnlyRetries(Rounds(script, attempt, true, authFirst, o).waits, 0)
    decreases Budget(attempt, true, o)
  {
    var r := Play(script(attempt), attempt, true, authFirst, o);
    RetryCosts(script(attempt), attempt, true, authFirst, o);
    if r.Again? {
      NoSecondRefresh(script, attempt + 1, authFirst, o);
    }
    hide Decide, Budget;
  }

  /** A request asks for a new token once at most: after a round that has asked for one, successfully or in vain, there is
      no second refresh. */
  lemma RefreshedOnce(script: nat -> Round, attempt: nat, authFirst: bool, o: Options)
    requires o.Normalized() && Failure(script(attempt)).Some? && script(attempt).hookError.None?
    requires !script(attempt).authWish.NoRefresh? && !script(attempt).retryWish.RetryThrows?
    requires authFirst || attempt >= o.retries || script(attempt).retryWish.NoRetry?
    ensures OnlyRetries(Rounds(script, attempt, false, authFirst, o).waits, 1)
  {
    var r := Play(script(attempt), attempt, false, authFirst, o);
    RetryCosts(script(attempt), attempt, false, authFirst, o);
    if r.Again? {
      NoSecondRefresh(script, attempt + 1, authFirst, o);
    }
    hide Decide, Budget;
  }

  const ALWAYS_FAILS := Round(Threw(0), Threw(0), None, None, Wants(Question(None, Finite(0.0), Finite(0.0), 0.0)),
                             Refreshes, Threw(0), None)

  /** The bound is attained: retries while there are any, then one refresh, then a last failure. */
  lemma {:induction false} BoundAttained(attempt: nat, o: Options)
    requires o.Normalized() && o.maxElapsedTime.None? && attempt <= o.retries
    ensures Rounds((_: nat) => ALWAYS_FAILS, attempt, false, false, o).attempts == o.retries - attempt + 2
    decreases o.retries - attempt
  {
    var script := (_: nat) => ALWAYS_FAILS;
    if attempt < o.retries {
      BoundAttained(attempt + 1, o);
      assert Play(ALWAYS_FAILS, attempt, false, false, o) == Again(Wait(0.0, Some(0.0)), false);
    } else {
      assert Play(ALWAYS_FAILS, attempt, false, false, o) == Again(Wait(0.0, None), true);
      assert Play(ALWAYS_FAILS, attempt + 1, true, false, o) == Ends(Failed(0), []);
      assert Rounds(script, attempt + 1, true, false, o).attempts == 1;
    }
  }

  /** A trace made of rounds already played and the rest. */
  ghost predicate Continues(t: Trace, played: nat, waits: seq<Wait>, rest: Trace) {
    t == Trace(rest.exit, played + rest.attempts, waits + rest.waits)
  }

  lemma NextRound(t: Trace, waits: seq<Wait>, script: nat -> Round, attempt: nat, refreshed: bool, authFirst: bool,
                  o: Options)
    requires o.Normalized() && Continues(t, attempt, waits, Rounds(script, attempt, refreshed, authFirst, o))
    ensures var r := Play(script(attempt), attempt, refreshed, authFirst, o);
            if r.Again?
            then Continues(t, attempt + 1, waits + [r.wait], Rounds(script, attempt + 1, r.refreshed, authFirst, o))
            else t == Trace(r.exit, attempt + 1, waits + r.waits) && |r.waits| <= 1
  {
  }

  // ---------- The pipeline itself ----------

  /** The context the hooks see. `settled` counts how often the settled hooks have run, and `calls` the transport
      attempts. */
  class Context {
    var response: Option<Response>
    var error: Option<Error>
    var fallback: Option<Response>
    var attempt: nat
    var refreshed: bool
    var calls: nat
    var settled: nat

    constructor ()
      ensures response == None && error == None && fallback == None && attempt == 0 && !refreshed
      ensures calls == 0 && settled == 0
    {
      response, error, fallback := None, None, None;
      attempt, refreshed, calls, settled := 0, false, 0, 0;
    }

    /** One request: `early` is what the request hooks leave (an error, a response to process, or nothing), the rest
        is up to the script. */
    method ExecuteLifecycle(early: Option<Call>, script: nat -> Round, authFirst: bool, o: Options) returns (exit: Exit)
      requires o.Normalized()
      requires response == None && error == None && fallback == None && attempt == 0 && !refreshed
      requires calls == 0 && settled == 0
      modifies this
      ensures settled == 1 && calls <= o.retries + 2
      ensures early.Some? && early.value.Done? ==> calls == 0 && exit == Returned(early.value.response)
      ensures early.Some? && early.value.Threw? ==> calls == 0 && exit == Failed(early.value.error)
      ensures early.None? ==>
                var t := Rounds(script, 0, false, authFirst, o);
                && exit == t.exit && calls == t.attempts
                && attempt == calls - 1 + (if calls == |t.waits| then 1 else 0)
      ensures exit.Returned? ==> response == Some(exit.response) && error == None && fallback == None
      ensures exit.Failed? ==> error == Some(exit.error)
    {
      if early.Some? {
        match early.value {
          case Done(r) => response := Some(r); exit := Returned(r);
          case Threw(e) => error := Some(e); exit := Failed(e);
        }
      } else {
        Terminates(script, 0, false, authFirst, o);
        exit := RunAttempts(script, authFirst, o);
      }
      settled := settled + 1;
    }

    method RunAttempts(script: nat -> Round, authFirst: bool, o: Options) returns (exit: Exit)
      requires o.Normalized()
      requires response == None && error == None && fallback == None && attempt == 0 && !refreshed && calls == 0
      modifies this
      ensures settled == old(settled)
      ensures var t := Rounds(script, 0, false, authFirst, o);
              exit == t.exit && calls == t.attempts && attempt == calls - 1 + (if calls == |t.waits| then 1 else 0)
      ensures exit.Returned? ==> response == Some(exit.response) && error == None && fallback == None
      ensures exit.Failed? ==> error == Some(exit.error)
    {
      ghost var t := Rounds(script, 0, false, authFirst, o);
      ghost var waits: seq<Wait> := [];
      assert Continues(t, 0, waits, t);
      hide Play, Budget, Rounds, Continues, Decide, Resolve;
      while true
        invariant settled == old(settled) && response == None && error == None && fallback == None
        invariant calls == attempt == |waits|
        invariant Continues(t, attempt, waits, Rounds(script, attempt, refreshed, authFirst, o))
        decreases Budget(attempt, refreshed, o)
      {
        ghost var r := Play(script(attempt), attempt, refreshed, authFirst, o);
        RetryCosts(script(attempt), attempt, refreshed, authFirst, o);
        NextRound(t, waits, script, attempt, refreshed, authFirst, o);
        var ended := RunOnce(script(attempt), authFirst, o);
        if ended.Some? {
          return ended.value;
        }
        waits := waits + [r.wait];
      }
    }

    /** One round; nothing is returned when another one follows. */
    method RunOnce(round: Round, authFirst: bool, o: Options) returns (ended: Option<Exit>)
      requires o.Normalized() && response == None && error == None && fallback == None
      modifies this
      ensures settled == old(settled) && calls == old(calls) + 1
      ensures var r := Play(round, old(attempt), old(refreshed), authFirst, o);
              && (ended == if r.Ends? then Some(r.exit) else None)
              && attempt == old(attempt) + (if r.Again? || r.waits != [] then 1 else 0)
              && (r.Again? ==> refreshed == r.refreshed)
      ensures ended.None? ==> response == None && error == None && fallback == None
      ensures ended.Some? && ended.value.Returned? ==>
                response == Some(ended.value.response) && error == None && fallback == None
      ensures ended.Some? && ended.value.Failed? ==> error == Some(ended.value.error)
    {
      hide Resolve, Decide;
      calls := calls + 1;
      if round.transport.Done? {
        response := Some(round.transport.response);
      }
      var result := Attempt(round);
      if result.Done? {
        response := Some(result.response);
        return Some(Returned(result.response));
      }
      error := Some(result.error);
      if round.hookError.Some? {
        error := round.hookError;
        return Some(Failed(round.hookError.value));
      }
      fallback := round.fallback;
      var (decision, marked) := Resolve(round, attempt, refreshed, authFirst, o);
      refreshed := marked;
      if decision.Fails? {
        error := Some(decision.error);
        return Some(Failed(decision.error));
      }
      if decision.Stop? {
        var exit := Recover(round, result.error);
        return Some(exit);
      }
      response, error, fallback := None, None, None;
      attempt := attempt + 1;
      if round.waitError.Some? {
        error := round.waitError;
        return Some(Failed(round.waitError.value));
      }
      return None;
    }

    /** A fallback replaces the error, and is gone afterwards. */
    method Recover(round: Round, e: Error) returns (exit: Exit)
      requires error == Some(e) && fallback == round.fallback
      modifies this`response, this`error, this`fallback
      ensures exit == GiveUp(round, e) && fallback == None
      ensures exit.Returned? ==> response == Some(exit.response) && error == None
      ensures exit.Failed? ==> error == Some(exit.error)
    {
      if fallback.None? {
        return Failed(e);
      }
      response, error := fallback, None;
      match round.recovery {
        case Done(r) => response := Some(r); exit := Returned(r);
        case Threw(f) => error := Some(f); exit := Failed(f);
      }
      fallback := None;
    }
  }
}
