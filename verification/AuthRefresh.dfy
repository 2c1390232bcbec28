/** The single-flight token refresh shared by the installations of one auth plugin. */
module AuthRefresh {
  import opened Collections

  /** Waiting for the new token, storing it, or with a settled promise whose `finally` has not run yet. */
  datatype Stage = Fetching | Storing | Settled | Finished

  datatype Refresh = Refresh(installations: set<nat>, stage: Stage)

  /** `started` collects the refreshes that have started a write to the token storage, and who wanted them then. */
  datatype Auth = Auth(refreshes: map<nat, Refresh>, current: Option<nat>, next: nat, installed: set<nat>,
                       started: set<(nat, set<nat>)>)

  const EMPTY := Auth(map[], None, 0, {}, {})

  datatype Event =
    | Install(installation: nat)
    | Want(installation: nat)
    | Token(refresh: nat, usable: bool, slow: bool)
    | Stored(refresh: nat)
    | Reject(refresh: nat)
    | Finally(refresh: nat)
    | Uninstall(installation: nat)

  predicate In(s: Auth, refresh: nat, stage: Stage) {
    refresh in s.refreshes && s.refreshes[refresh].stage == stage
  }

  predicate Enabled(s: Auth, e: Event) {
    match e
    case Install(i) => i !in s.installed
    case Want(i) => i in s.installed
    case Token(r, _, _) => In(s, r, Fetching)
    case Stored(r) => In(s, r, Storing)
    case Reject(r) => In(s, r, Fetching) || In(s, r, Storing)
    case Finally(r) => In(s, r, Settled)
    case Uninstall(i) => i in s.installed
  }

  // ---------- Steps ----------

  /** A request joins the refresh under way, or starts one. */
  function Join(s: Auth, i: nat): Auth
    requires s.current.Some? ==> s.current.value in s.refreshes
  {
    if s.current.None? then
      s.(refreshes := s.refreshes[s.next := Refresh({i}, Fetching)], current := Some(s.next), next := s.next + 1)
    else
      var r := s.refreshes[s.current.value];
      s.(refreshes := s.refreshes[s.current.value := r.(installations := r.installations + {i})])
  }

  /** A new token is stored only while somebody still wants it; `slow` is a storage that answers later. */
  function Arrive(s: Auth, refresh: nat, usable: bool, slow: bool): Auth
    requires refresh in s.refreshes
  {
    var r := s.refreshes[refresh];
    var stores := usable && r.installations != {};
    s.(refreshes := s.refreshes[refresh := r.(stage := if stores && slow then Storing else Settled)],
       started := if stores then s.started + {(refresh, r.installations)} else s.started)
  }

  function Move(s: Auth, refresh: nat, stage: Stage): Auth
    requires refresh in s.refreshes
  {
    s.(refreshes := s.refreshes[refresh := s.refreshes[refresh].(stage := stage)])
  }

  /** A finished refresh clears the shared state only while that still points to it. */
  function Finish(s: Auth, refresh: nat): Auth
    requires refresh in s.refreshes
  {
    Move(s, refresh, Finished).(current := if s.current == Some(refresh) then None else s.current)
  }

  /** A removed installation loses interest; a refresh nobody wants is abandoned. */
  function Remove(s: Auth, i: nat): Auth
    requires s.current.Some? ==> s.current.value in s.refreshes
  {
    var left := s.(installed := s.installed - {i});
    if s.current.None? then left
    else
      var r := s.refreshes[s.current.value];
      var wanted := r.installations - {i};
      left.(refreshes := s.refreshes[s.current.value := r.(installations := wanted)],
            current := if wanted == {} then None else s.current)
  }

  // ---------- The invariant ----------

  /** The refresh under way is wanted by installed plugins; any other unfinished one is wanted by nobody. */
  ghost predicate Inv(s: Auth) {
    && (forall r | r in s.refreshes :: r < s.next)
    && (s.current.Some? ==> s.current.value in s.refreshes && !s.refreshes[s.current.value].stage.Finished?
                            && s.refreshes[s.current.value].installations != {}
                            && s.refreshes[s.current.value].installations <= s.installed)
    && (forall r | r in s.refreshes && !s.refreshes[r].stage.Finished? && s.current != Some(r) ::
          s.refreshes[r].installations == {})
    && (forall w | w in s.started :: w.0 in s.refreshes && w.1 != {})
  }

  function Step(s: Auth, e: Event): (n: Auth)
    requires Inv(s) && Enabled(s, e)
    ensures Inv(n)
  {
    match e
    case Install(i) => s.(installed := s.installed + {i})
    case Want(i) => Join(s, i)
    case Token(r, usable, slow) => Arrive(s, r, usable, slow)
    case Stored(r) => Move(s, r, Settled)
    case Reject(r) => Move(s, r, Settled)
    case Finally(r) => Finish(s, r)
    case Uninstall(i) => Remove(s, i)
  }

  ghost predicate Allowed(s: Auth, events: seq<Event>)
    requires Inv(s)
    decreases |events|
  {
    events == [] || (Enabled(s, events[0]) && Allowed(Step(s, events[0]), events[1..]))
  }

  function Run(s: Auth, events: seq<Event>): (n: Auth)
    requires Inv(s) && Allowed(s, events)
    ensures Inv(n)
    decreases |events|
  {
    if events == [] then s else Run(Step(s, events[0]), events[1..])
  }

  // ---------- What every run guarantees ----------

  /** At most one unfinished refresh is wanted by anybody, and it is the one new requests join. */
  lemma SingleFlight(events: seq<Event>, r: nat, q: nat)
    requires Inv(EMPTY) && Allowed(EMPTY, events)
    requires var s := Run(EMPTY, events);
             && r in s.refreshes && !s.refreshes[r].stage.Finished? && s.refreshes[r].installations != {}
             && q in s.refreshes && !s.refreshes[q].stage.Finished? && s.refreshes[q].installations != {}
    ensures r == q && Run(EMPTY, events).current == Some(r)
  {
  }

  /** Only the shared refresh starts a storage write, while an installed plugin wants it. */
  lemma OnlyTheSharedOneStores(s: Auth, e: Event, w: (nat, set<nat>))
    requires Inv(s) && Enabled(s, e) && w in Step(s, e).started && w !in s.started
    ensures e.Token? && s.current == Some(w.0) && {} != w.1 <= s.installed
  {
  }

  /** An abandoned refresh changes nothing when it completes late: its successor stays shared and keeps its stage. */
  lemma LateCompletion(s: Auth, e: Event, r: nat)
    requires Inv(s) && Enabled(s, e) && r in s.refreshes && s.current != Some(r)
    requires e == Finally(r) || e == Stored(r) || e == Reject(r) || (e.Token? && e.refresh == r)
    ensures var n := Step(s, e);
            && n.current == s.current && n.started == s.started && n.installed == s.installed
            && forall q | q in s.refreshes && q != r :: q in n.refreshes && n.refreshes[q] == s.refreshes[q]
  {
  }

  /** Once abandoned, a refresh is never joined again and never stores its token. */
  lemma {:induction false} AbandonedForGood(s: Auth, events: seq<Event>, r: nat)
    requires Inv(s) && Allowed(s, events) && r in s.refreshes && s.current != Some(r)
    ensures var n := Run(s, events);
            && r in n.refreshes && n.current != Some(r) && n.refreshes[r].installations == s.refreshes[r].installations
            && forall w | w in n.started && w.0 == r :: w in s.started
    decreases |events|
  {
    if events != [] {
      AbandonedStays(s, events[0], r);
      AbandonedForGood(Step(s, events[0]), events[1..], r);
    }
    hide Step, Enabled;
  }

  lemma AbandonedStays(s: Auth, e: Event, r: nat)
    requires Inv(s) && Enabled(s, e) && r in s.refreshes && s.current != Some(r)
    ensures var n := Step(s, e);
            && r in n.refreshes && n.current != Some(r) && n.refreshes[r].installations == s.refreshes[r].installations
            && forall w | w in n.started && w.0 == r :: w in s.started
  {
  }

  /** What one event means for the shared refresh, for the storage and for all other refreshes. */
  ghost predicate Happens(s: Auth, n: Auth, e: Event) {
    && (forall r | r in s.refreshes && s.current != Some(r) && !About(e, r) ::
          r in n.refreshes && n.refreshes[r] == s.refreshes[r])
    && n.installed == (match e
                       case Install(i) => s.installed + {i}
                       case Uninstall(i) => s.installed - {i}
                       case _ => s.installed)
    && match e
       case Install(_) => Kept(s, n)
       // a request joins the refresh under way, or starts one that nobody else wants yet
       case Want(i) =>
         && n.started == s.started && n.current.Some? && n.current.value in n.refreshes
         && if s.current.Some? && s.current.value in s.refreshes then
              && n.current == s.current
              && n.refreshes[n.current.value].stage == s.refreshes[s.current.value].stage
              && n.refreshes[n.current.value].installations == s.refreshes[s.current.value].installations + {i}
            else n.current.value !in s.refreshes && n.refreshes[n.current.value] == Refresh({i}, Fetching)
       // a usable token that somebody wants is stored, for those who want it now, and no other one is
       case Token(r, usable, slow) =>
         && n.current == s.current && r in s.refreshes && r in n.refreshes
         && var wanted := s.refreshes[r].installations;
            && n.refreshes[r].installations == wanted
            && (if usable && wanted != {} then
                  && n.started == s.started + {(r, wanted)}
                  && n.refreshes[r].stage == (if slow then Storing else Settled)
                else n.started == s.started && n.refreshes[r].stage == Settled)
       case Stored(r) => n.current == s.current && n.started == s.started && In(n, r, Settled)
       case Reject(r) => n.current == s.current && n.started == s.started && In(n, r, Settled)
       case Finally(r) =>
         && n.current == (if s.current == Some(r) then None else s.current) && n.started == s.started && In(n, r, Finished)
       // a refresh stays shared as long as another installation wants it
       case Uninstall(i) =>
         && n.started == s.started
         && if s.current.Some? && s.current.value in s.refreshes then
              && s.current.value in n.refreshes
              && n.refreshes[s.current.value].installations == s.refreshes[s.current.value].installations - {i}
              && (n.current == s.current
                  <==> exists j :: j in s.refreshes[s.current.value].installations && j != i)
              && (n.current != s.current ==> n.current == None)
            else n.current == s.current
  }

  predicate About(e: Event, r: nat) {
    (e.Token? || e.Stored? || e.Reject? || e.Finally?) && e.refresh == r
  }

  ghost predicate Kept(s: Auth, n: Auth) {
    n.refreshes == s.refreshes && n.current == s.current && n.started == s.started
  }

  lemma StepHappens(s: Auth, e: Event)
    requires Inv(s) && Enabled(s, e)
    ensures Happens(s, Step(s, e), e)
  {
    if e.Uninstall? && s.current.Some? {
      var wanted := s.refreshes[s.current.value].installations;
      assert wanted - {e.installation} != {} <==> exists j :: j in wanted && j != e.installation by {
        if j :| j in wanted && j != e.installation {
          assert j in wanted - {e.installation};
        }
        if wanted - {e.installation} != {} {
          var j :| j in wanted - {e.installation};
          assert j in wanted && j != e.installation;
        }
      }
    }
  }

  // ---------- The plugin itself ----------

  class Plugin {
    var refreshes: map<nat, Refresh>
    var refreshState: Option<nat>
    var next: nat
    var installed: set<nat>
    ghost var started: set<(nat, set<nat>)>

    ghost function State(): Auth
      reads this
    {
      Auth(refreshes, refreshState, next, installed, started)
    }

    constructor ()
      ensures State() == EMPTY && Inv(State())
    {
      refreshes, refreshState, next, installed, started := map[], None, 0, {}, {};
    }

    method OnInstall(i: nat)
      requires Inv(State()) && Enabled(State(), Install(i))
      modifies this
      ensures Inv(State()) && State() == Step(old(State()), Install(i))
    {
      installed := installed + {i};
    }

    method RefreshAccessToken(i: nat) returns (refresh: nat)
      requires Inv(State()) && Enabled(State(), Want(i))
      modifies this
      ensures Inv(State()) && State() == Step(old(State()), Want(i)) && refreshState == Some(refresh)
      ensures refresh in refreshes && i in refreshes[refresh].installations
      ensures if old(refreshState).Some? then refreshState == old(refreshState) else refresh !in old(refreshes)
    {
      if refreshState.None? {
        refresh := next;
        refreshes := refreshes[refresh := Refresh({i}, Fetching)];
        refreshState, next := Some(refresh), next + 1;
      } else {
        refresh := refreshState.value;
        var r := refreshes[refresh];
        refreshes := refreshes[refresh := r.(installations := r.installations + {i})];
      }
    }

    method OnToken(refresh: nat, usable: bool, slow: bool)
      requires Inv(State()) && Enabled(State(), Token(refresh, usable, slow))
      modifies this
      ensures Inv(State()) && State() == Step(old(State()), Token(refresh, usable, slow))
    {
      var r := refreshes[refresh];
      if !usable || r.installations == {} {
        refreshes := refreshes[refresh := r.(stage := Settled)];
        return;
      }
      started := started + {(refresh, r.installations)};
      refreshes := refreshes[refresh := r.(stage := if slow then Storing else Settled)];
    }

    method OnSettled(refresh: nat, stored: bool)
      requires Inv(State()) && Enabled(State(), if stored then Stored(refresh) else Reject(refresh))
      modifies this
      ensures Inv(State()) && State() == Step(old(State()), if stored then Stored(refresh) else Reject(refresh))
    {
      refreshes := refreshes[refresh := refreshes[refresh].(stage := Settled)];
    }

    method OnFinally(refresh: nat)
      requires Inv(State()) && Enabled(State(), Finally(refresh))
      modifies this
      ensures Inv(State()) && State() == Step(old(State()), Finally(refresh))
    {
      if refreshState == Some(refresh) {
        refreshState := None;
      }
      refreshes := refreshes[refresh := refreshes[refresh].(stage := Finished)];
    }

    method OnUninstall(i: nat)
      requires Inv(State()) && Enabled(State(), Uninstall(i))
      modifies this
      ensures Inv(State()) && State() == Step(old(State()), Uninstall(i))
    {
      installed := installed - {i};
      if refreshState.Some? {
        var refresh := refreshState.value;
        var wanted := refreshes[refresh].installations - {i};
        refreshes := refreshes[refresh := refreshes[refresh].(installations := wanted)];
        if wanted == {} {
          refreshState := None;
        }
      }
    }
  }
}
