/** The cache plugin: requests take generation tokens, elect leaders, join flights and write back, while explicit
    mutations run against them. Every step is one synchronous stretch between two awaits. */
module CacheProtocol {
  import opened Collections
  import opened CacheOperations

  /** Where a stored record comes from: a request's answer, or an explicit operation. */
  datatype Origin = ByRequest(request: nat) | Explicit(op: nat)

  /** Of a record only its origin and its tags matter here. */
  datatype Entry = Entry(origin: Origin, tags: set<Tag>)

  /** A key generation; requests compare it by identity. */
  datatype Token = Token(key: Key, active: int, tags: set<Tag>)

  /** What a request is and holds; none of it changes while the request lives. */
  datatype Ask = Ask(installation: nat, key: Key, tags: set<Tag>, raw: bool, token: nat, generation: nat)

  /** How far a request is: about to read the store, holding what it read, a miss, waiting for a leader's answer,
      on its way to the network, or answered from the cache or failed. */
  datatype Stage =
    | Asked
    | Looked(found: Option<Entry>)
    | Missing(stale: Option<Entry>)
    | Following(leader: nat)
    | Sent
    | Over

  datatype Outcome = Nothing | Shared(entry: Entry) | Failure

  /** The shared work of a leader; `outcomes` are the settlements of its promise. */
  datatype Flight = Flight(raw: bool, rawDemanded: bool, promised: bool, registered: bool, outcomes: seq<Outcome>)

  /** A change of the store by a request; `time` is the number the next operation would have had. */
  datatype Write = Write(time: nat, request: nat, key: Key)

  /** Tokens and those who hold them. Requests are numbered like operations, in one order; `open` are the unsettled
      ones. */
  datatype Core = Core(ops: Ops, generation: nat, current: map<Key, nat>, tokens: map<nat, Token>, asks: map<nat, Ask>,
                       open: set<nat>)

  /** The store, and what running updates have read from it. `applied` are the operations whose call into the store
      has been made; it and `writes` are bookkeeping of the specification. */
  datatype Disk = Disk(store: map<Key, Entry>, reading: map<nat, Option<Entry>>, applied: set<nat>, writes: set<Write>)

  /** How far the requests are, and the flights they share. */
  datatype Work = Work(stages: map<nat, Stage>, stale: map<nat, Entry>, completed: map<nat, Entry>, uncacheable: set<nat>,
                       flights: map<nat, Flight>, inFlight: map<Key, nat>, rawInFlight: map<Key, nat>)

  /** The state that all installations of one plugin share. Installations are numbered in order; `orphans` collects
      the leaders that were in flight when another installation was removed, which forgets their tokens too. */
  datatype Cache = Cache(core: Core, disk: Disk, work: Work, installs: nat, installed: set<nat>, orphans: set<nat>)

  const EMPTY := Cache(Core(Ops(0, map[], map[], map[]), 0, map[], map[], map[], {}), Disk(map[], map[], {}, {}),
                       Work(map[], map[], map[], {}, map[], map[], map[]), 0, {}, {})

  function Get<V>(m: map<nat, V>, k: nat): Option<V> {
    if k in m then Some(m[k]) else None
  }

  // ---------- Tokens ----------

  function Acquired(c: Core, key: Key): nat {
    if key in c.current then c.current[key] else c.ops.next
  }

  /** One more request holds the token, which now carries its tags too. */
  function Take(tokens: map<nat, Token>, token: nat, key: Key, tags: set<Tag>): map<nat, Token> {
    var was := if token in tokens then tokens[token] else Token(key, 0, {});
    tokens[token := Token(was.key, was.active + 1, was.tags + tags)]
  }

  /** The request hook: takes a token, and a place behind the pending mutations it must see. */
  function Acquire(c: Core, installation: nat, key: Key, tags: set<Tag>, raw: bool): Core {
    var token := Acquired(c, key);
    Core(Issue(c.ops, Read(key, tags), false), c.generation, c.current[key := token],
         Take(c.tokens, token, key, tags), c.asks[c.ops.next := Ask(installation, key, tags, raw, token, c.generation)],
         c.open + {c.ops.next})
  }

  predicate Holds(a: Ask, current: map<Key, nat>) {
    a.key in current && current[a.key] == a.token
  }

  predicate IsCurrent(c: Core, a: Ask) {
    a.generation == c.generation && Holds(a, c.current)
  }

  function Release(c: Core, id: nat): Core
    requires id in c.asks && c.asks[id].token in c.tokens
  {
    var a := c.asks[id];
    var token := c.tokens[a.token].(active := c.tokens[a.token].active - 1);
    c.(tokens := c.tokens[a.token := token], open := c.open - {id},
       current := if token.active == 0 && Holds(a, c.current) then c.current - {a.key} else c.current)
  }

  function Tagged(c: Core, tags: set<Tag>): set<Key> {
    set k | k in c.current && c.current[k] in c.tokens && c.tokens[c.current[k]].tags * tags != {}
  }

  function Doomed(c: Core, kind: Kind): set<Key> {
    match kind
    case Invalidate(tags) => Tagged(c, tags)
    case Delete(key) => {key}
    case Store(key, _) => {key}
    case Update(key) => {key}
    case _ => {}
  }

  /** Issuing a mutation kills the tokens it concerns, whenever it will run. */
  function Outdate(c: Core, kind: Kind, sync: bool): Core {
    c.(current := c.current - Doomed(c, kind), ops := Issue(c.ops, kind, sync))
  }

  function OutdateAll(c: Core, returning: set<nat>): Core {
    c.(generation := c.generation + 1, current := map[], ops := Issue(c.ops, Clear(returning), true))
  }

  // ---------- The store ----------

  function Drop(d: Disk, time: nat, id: nat, key: Key): Disk {
    d.(store := d.store - {key}, writes := d.writes + {Write(time, id, key)})
  }

  function Save(d: Disk, time: nat, id: nat, key: Key, entry: Entry): Disk {
    d.(store := d.store[key := entry], writes := d.writes + {Write(time, id, key)})
  }

  /** The call into the store that an operation makes when it starts; a store that fails changes nothing. */
  function Effect(d: Disk, id: nat, kind: Kind, works: bool): Disk {
    if kind.Update? then d.(reading := d.reading[id := Get(d.store, kind.key)])
    else if works then d.(store := Changed(d.store, id, kind), applied := d.applied + {id})
    else d
  }

  function Changed(store: map<Key, Entry>, id: nat, kind: Kind): map<Key, Entry> {
    match kind
    case Delete(key) => store - {key}
    case Store(key, tags) => store[key := Entry(Explicit(id), tags)]
    case Invalidate(tags) => map k | k in store && store[k].tags * tags == {} :: store[k]
    case Clear(_) => map[]
    case _ => store
  }

  /** A `set` that has yet to call the store, or an `update` that has read a record and not written it back. */
  predicate Puts(o: Ops, reading: map<nat, Option<Entry>>, p: nat) {
    && p in o.ops
    && ((o.ops[p].kind.Store? && o.ops[p].phase.Waiting?)
        || (o.ops[p].kind.Update? && p in reading && reading[p].Some?))
  }

  /** What can still put a record into an emptied store: those, and an `update` waiting behind one of them. */
  predicate Returns(o: Ops, reading: map<nat, Option<Entry>>, q: nat) {
    || Puts(o, reading, q)
    || (q in o.ops && o.ops[q].kind.Update? && o.ops[q].phase.Waiting?
        && exists p | p in o.ops :: p < q && Puts(o, reading, p) && o.ops[p].kind.key == o.ops[q].kind.key)
  }

  function Returning(o: Ops, reading: map<nat, Option<Entry>>): set<nat> {
    set q | q in o.ops && Returns(o, reading, q)
  }

  /** An update found a record and writes it back changed, or deletes it. */
  function Rewrite(d: Disk, id: nat, key: Key, keep: bool, works: bool): Disk
    requires id in d.reading
  {
    var r := d.(reading := d.reading - {id});
    if d.reading[id].None? || !works then r
    else
      r.(store := if keep then d.store[key := Entry(Explicit(id), d.reading[id].value.tags)] else d.store - {key},
         applied := d.applied + {id})
  }

  // ---------- Flights ----------

  function Pending(w: Work, a: Ask): Option<nat> {
    if a.raw then Get(w.rawInFlight, a.key)
    else if a.key in w.inFlight then Some(w.inFlight[a.key])
    else Get(w.rawInFlight, a.key)
  }

  function At(w: Work, id: nat, stage: Stage): Work {
    w.(stages := w.stages[id := stage])
  }

  /** On the way to the network, possibly to revalidate a record read before. */
  function Leave(w: Work, id: nat, stale: Option<Entry>): Work {
    w.(stages := w.stages[id := Sent], stale := if stale.Some? then w.stale[id := stale.value] else w.stale)
  }

  function Join(w: Work, id: nat, leader: nat): Work {
    w.(flights := if leader in w.flights then w.flights[leader := w.flights[leader].(promised := true)] else w.flights,
       stages := w.stages[id := Following(leader)])
  }

  /** A raw leader takes the write-back over from a data leader that is already under way. */
  function Lead(w: Work, id: nat, a: Ask): Work {
    if a.raw then
      w.(flights := Demand(w, a.key)[id := Flight(true, false, false, true, [])], rawInFlight := w.rawInFlight[a.key := id])
    else
      w.(flights := w.flights[id := Flight(false, false, false, true, [])], inFlight := w.inFlight[a.key := id])
  }

  function Demand(w: Work, key: Key): map<nat, Flight> {
    if key in w.inFlight && w.inFlight[key] in w.flights
    then w.flights[w.inFlight[key] := w.flights[w.inFlight[key]].(rawDemanded := true)]
    else w.flights
  }

  predicate Leads(w: Work, id: nat) {
    id in w.flights && w.flights[id].registered
  }

  function Settled(f: Flight, outcome: Outcome): Flight {
    f.(registered := false, outcomes := if f.promised then f.outcomes + [outcome] else f.outcomes)
  }

  function Unlink(inFlight: map<Key, nat>, key: Key, id: nat): map<Key, nat> {
    if key in inFlight && inFlight[key] == id then inFlight - {key} else inFlight
  }

  /** What a leader leaves to its followers. */
  function Result(w: Work, id: nat, succeeded: bool): Outcome {
    if id in w.uncacheable then Nothing
    else if id in w.completed && succeeded then Shared(w.completed[id])
    else Failure
  }

  function Land(w: Work, id: nat, key: Key, succeeded: bool): Work {
    if !Leads(w, id) then w
    else
      var landed := w.(flights := w.flights[id := Settled(w.flights[id], Result(w, id, succeeded))]);
      if w.flights[id].raw then landed.(rawInFlight := Unlink(w.rawInFlight, key, id))
      else landed.(inFlight := Unlink(w.inFlight, key, id))
  }

  function Forget(w: Work, keys: set<Key>): Work {
    w.(inFlight := w.inFlight - keys, rawInFlight := w.rawInFlight - keys)
  }

  predicate Owned(w: Work, asks: map<nat, Ask>, id: nat, installation: nat) {
    Leads(w, id) && id in asks && asks[id].installation == installation
  }

  /** The followers of an installation's leaders fail with it. */
  function Abandon(w: Work, asks: map<nat, Ask>, installation: nat): Work {
    w.(flights := map id | id in w.flights ::
         if Owned(w, asks, id, installation) then Settled(w.flights[id], Failure) else w.flights[id],
       inFlight := map k | k in w.inFlight && !Owned(w, asks, w.inFlight[k], installation) :: w.inFlight[k],
       rawInFlight := map k | k in w.rawInFlight && !Owned(w, asks, w.rawInFlight[k], installation) :: w.rawInFlight[k])
  }

  // ---------- Hooks and mutations ----------

  function Request(s: Cache, installation: nat, key: Key, tags: set<Tag>, raw: bool): Cache {
    s.(core := Acquire(s.core, installation, key, tags, raw), work := At(s.work, s.core.ops.next, Asked))
  }

  /** Reads the store, once nothing the request waits for is pending. */
  function Look(s: Cache, id: nat): Cache
    requires id in s.core.asks && id in s.core.ops.ops && (s.core.ops.ops[id].phase.Waiting? ==> Ready(s.core.ops, id))
  {
    s.(core := if s.core.ops.ops[id].phase.Waiting? then s.core.(ops := Start(s.core.ops, id)) else s.core,
       work := At(s.work, id, Looked(Get(s.disk.store, s.core.asks[id].key))))
  }

  /** What the record handler makes of a record: it answers, is dropped, or leads to a miss that may revalidate it. */
  datatype Verdict = Fresh | Expired | Stale | Unusable

  function Handled(s: Cache, id: nat, verdict: Verdict): Stage
    requires id in s.core.asks && id in s.work.stages && s.work.stages[id].Looked?
  {
    var found := s.work.stages[id].found;
    if !IsCurrent(s.core, s.core.asks[id]) then Sent
    else if found.None? then Missing(None)
    else
      match verdict
      case Fresh => Over
      case Expired => Missing(None)
      case Stale => Missing(found)
      case Unusable => Missing(None)
  }

  function Handle(s: Cache, id: nat, verdict: Verdict): Cache
    requires id in s.core.asks && id in s.work.stages && s.work.stages[id].Looked?
  {
    var drops := IsCurrent(s.core, s.core.asks[id]) && s.work.stages[id].found.Some? && verdict.Expired?;
    DropIf(drops, s, id, s.core.asks[id].key).(work := At(s.work, id, Handled(s, id, verdict)))
  }

  /** A miss joins the flight of its key, or leads a new one. */
  function Miss(s: Cache, id: nat, dedupe: bool): Cache
    requires id in s.core.asks && id in s.work.stages && s.work.stages[id].Missing?
  {
    var a, stale := s.core.asks[id], s.work.stages[id].stale;
    if !IsCurrent(s.core, a) then s.(work := At(s.work, id, Sent))
    else if !dedupe then s.(work := Leave(s.work, id, stale))
    else if Pending(s.work, a).Some? then s.(work := Join(s.work, id, Pending(s.work, a).value))
    else s.(work := Leave(Lead(s.work, id, a), id, stale))
  }

  /** With a refresh lease the record is read again, or the old one is handled again without a lease. */
  function Leased(s: Cache, id: nat, granted: bool): Cache
    requires id in s.work.stages && s.work.stages[id].Missing?
  {
    s.(work := At(s.work, id, if granted then Asked else Looked(s.work.stages[id].stale)))
  }

  /** The promise of the flight a request follows has settled. */
  function Wake(s: Cache, id: nat): Cache
    requires id in s.work.stages && s.work.stages[id].Following? && s.work.stages[id].leader in s.work.flights
    requires s.work.flights[s.work.stages[id].leader].outcomes != []
  {
    var outcome := s.work.flights[s.work.stages[id].leader].outcomes[0];
    s.(work := At(s.work, id, if outcome.Nothing? then Sent else Over))
  }

  /** What the response handler finds: a fallback or an opaque response, a stream, a response that must not or may
      be stored. `slow` tells that the store deletes asynchronously. */
  datatype Answer = Opaque | Stream | Unstorable(slow: bool) | Storable

  function EntryOf(s: Cache, id: nat): Entry
    requires id in s.core.asks && s.core.asks[id].token in s.core.tokens
  {
    var tags := s.core.tokens[s.core.asks[id].token].tags;
    Entry(ByRequest(id), if tags != {} then tags else if id in s.work.stale then s.work.stale[id].tags else {})
  }

  function Respond(s: Cache, id: nat, answer: Answer): Cache
    requires id in s.core.asks && s.core.asks[id].token in s.core.tokens
  {
    var key, current := s.core.asks[id].key, IsCurrent(s.core, s.core.asks[id]);
    match answer
    case Opaque => if Leads(s.work, id) then s.(work := Mark(s.work, id)) else s
    case Stream => DropIf(current, s, id, key).(work := Mark(s.work, id))
    case Unstorable(slow) =>
      var dropped := DropIf(current, s, id, key);
      if !Leads(s.work, id) then dropped
      else if s.work.flights[id].promised || (current && slow) then dropped.(work := Complete(s.work, id, EntryOf(s, id)))
      else dropped.(work := Mark(s.work, id))
    case Storable =>
      var done := s.(work := Complete(s.work, id, EntryOf(s, id)));
      if !current || (Leads(s.work, id) && s.work.flights[id].rawDemanded) then done
      else done.(disk := Save(s.disk, s.core.ops.next, id, key, EntryOf(s, id)))
  }

  function Mark(w: Work, id: nat): Work {
    w.(uncacheable := w.uncacheable + {id})
  }

  function Complete(w: Work, id: nat, entry: Entry): Work {
    w.(completed := w.completed[id := entry])
  }

  function DropIf(current: bool, s: Cache, id: nat, key: Key): Cache {
    if current then s.(disk := Drop(s.disk, s.core.ops.next, id, key)) else s
  }

  /** The settled hook. */
  function Settle(s: Cache, id: nat, succeeded: bool): Cache
    requires id in s.core.asks && s.core.asks[id].token in s.core.tokens
  {
    s.(core := Release(s.core, id), work := Land(s.work, id, s.core.asks[id].key, succeeded))
  }

  function Leaders(w: Work): set<nat> {
    set p | p in w.flights && w.flights[p].registered
  }

  /** Removal of an installation fails its leaders' followers and forgets all tokens. */
  function Uninstall(s: Cache, installation: nat): Cache {
    var left := Abandon(s.work, s.core.asks, installation);
    s.(core := s.core.(current := map[]), work := left, installed := s.installed - {installation},
       orphans := s.orphans + Leaders(left))
  }

  /** An explicit mutation: `sync` tells that the store answers at once, `works` that it does not fail, and `keep`
      that an updater returns a value. */
  function Mutate(s: Cache, kind: Kind, sync: bool, works: bool, keep: bool): Cache {
    s.(core := Outdate(s.core, kind, sync), work := Forget(s.work, Doomed(s.core, kind)),
       disk := if Waits(s.core.ops, kind) != {} then s.disk else Effects(s.disk, s.core.ops.next, kind, sync, works, keep))
  }

  function Effects(d: Disk, id: nat, kind: Kind, sync: bool, works: bool, keep: bool): Disk {
    if kind.Update? && sync then Rewrite(Effect(d, id, kind, works), id, kind.key, keep, works)
    else Effect(d, id, kind, works)
  }

  /** `clear` empties everything at once; it waits for nothing. */
  function Clearing(s: Cache, works: bool): Cache {
    var returning := Returning(s.core.ops, s.disk.reading);
    s.(core := OutdateAll(s.core, returning), work := s.work.(inFlight := map[], rawInFlight := map[]),
       disk := Effect(s.disk, s.core.ops.next, Clear(returning), works))
  }

  function Begin(s: Cache, id: nat, works: bool): Cache
    requires Ready(s.core.ops, id)
  {
    s.(core := s.core.(ops := Start(s.core.ops, id)), disk := Effect(s.disk, id, s.core.ops.ops[id].kind, works))
  }

  // ---------- Events ----------

  datatype Event =
    | Install
    | DoRequest(installation: nat, key: Key, tags: set<Tag>, raw: bool)
    | DoLook(id: nat)
    | DoHandle(id: nat, verdict: Verdict)
    | DoMiss(id: nat, dedupe: bool)
    | DoLease(id: nat, granted: bool)
    | DoWake(id: nat)
    | DoRespond(id: nat, answer: Answer)
    | DoSettle(id: nat, succeeded: bool)
    | DoUninstall(installation: nat)
    | DoMutate(kind: Kind, sync: bool, works: bool, keep: bool)
    | DoClear(works: bool)
    | DoBegin(id: nat, works: bool)
    | DoRewrite(id: nat, keep: bool, works: bool)
    | DoFinish(id: nat)

  /** A request acts only while it is unsettled and its installation is there. */
  predicate Acts(s: Cache, id: nat) {
    && id in s.core.open && id in s.core.asks && id in s.work.stages && s.core.asks[id].installation in s.installed
    && s.core.asks[id].token in s.core.tokens && id in s.core.ops.ops
  }

  predicate Updating(s: Cache, id: nat) {
    && id in s.disk.reading && id in s.core.ops.ops && s.core.ops.ops[id].kind.Update?
    && s.core.ops.ops[id].phase.Running?
  }

  predicate Enabled(s: Cache, e: Event) {
    match e
    case Install => true
    case DoRequest(i, _, _, _) => i in s.installed
    case DoLook(id) =>
      && Acts(s, id) && s.work.stages[id].Asked? && !s.core.ops.ops[id].phase.Done?
      && (s.core.ops.ops[id].phase.Waiting? ==> Ready(s.core.ops, id))
    case DoHandle(id, _) => Acts(s, id) && s.work.stages[id].Looked?
    case DoMiss(id, _) => Acts(s, id) && s.work.stages[id].Missing?
    case DoLease(id, _) =>
      && Acts(s, id) && s.work.stages[id].Missing? && IsCurrent(s.core, s.core.asks[id])
      && Pending(s.work, s.core.asks[id]).None?
    case DoWake(id) =>
      && Acts(s, id) && s.work.stages[id].Following? && s.work.stages[id].leader in s.work.flights
      && s.work.flights[s.work.stages[id].leader].outcomes != []
    case DoRespond(id, _) => Acts(s, id) && s.work.stages[id].Sent?
    case DoSettle(id, _) => Acts(s, id)
    case DoUninstall(i) => i in s.installed
    case DoMutate(kind, _, _, _) => Mutates(kind) && (kind.Invalidate? ==> kind.tags != {})
    case DoClear(_) => true
    case DoBegin(id, _) => Ready(s.core.ops, id) && Mutates(s.core.ops.ops[id].kind)
    case DoRewrite(id, _, _) => Updating(s, id)
    case DoFinish(id) =>
      && id in s.core.ops.ops && s.core.ops.ops[id].phase.Running? && Mutates(s.core.ops.ops[id].kind)
      && id !in s.disk.reading
  }

  function Step(s: Cache, e: Event): Cache
    requires Enabled(s, e)
  {
    match e
    case Install => s.(installs := s.installs + 1, installed := s.installed + {s.installs})
    case DoRequest(i, key, tags, raw) => Request(s, i, key, tags, raw)
    case DoLook(id) => Look(s, id)
    case DoHandle(id, verdict) => Handle(s, id, verdict)
    case DoMiss(id, dedupe) => Miss(s, id, dedupe)
    case DoLease(id, granted) => Leased(s, id, granted)
    case DoWake(id) => Wake(s, id)
    case DoRespond(id, answer) => Respond(s, id, answer)
    case DoSettle(id, succeeded) => Settle(s, id, succeeded)
    case DoUninstall(i) => Uninstall(s, i)
    case DoMutate(kind, sync, works, keep) => Mutate(s, kind, sync, works, keep)
    case DoClear(works) => Clearing(s, works)
    case DoBegin(id, works) => Begin(s, id, works)
    case DoRewrite(id, keep, works) => s.(disk := Rewrite(s.disk, id, s.core.ops.ops[id].kind.key, keep, works))
    case DoFinish(id) => s.(core := s.core.(ops := Finish(s.core.ops, id)))
  }

  predicate Allowed(s: Cache, events: seq<Event>)
    decreases |events|
  {
    events == [] || (Enabled(s, events[0]) && Allowed(Step(s, events[0]), events[1..]))
  }

  function Run(s: Cache, events: seq<Event>): Cache
    requires Allowed(s, events)
    decreases |events|
  {
    if events == [] then s else Run(Step(s, events[0]), events[1..])
  }
}
