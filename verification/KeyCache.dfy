/** The JWKS key cache of the OIDC verifier as a transition system.

    Every memory access of `key` and `refresh` is one step, and the two locks are part of the
    state, so that an interleaving of any number of calls is a sequence of events.
    The clock moves only by `Tick` events and never backwards.
*/
module KeyCache {
  import opened Common
  import opened KeySet

  const KEY_CACHE_TTL: int := 600 * SECOND
  const REFRESH_COOLDOWN: int := 60 * SECOND

  type CallId = nat

  /** What one run of loadKeys produced. A canceled or timed-out fetch is a failed load. */
  datatype LoadOutcome = LoadOk(keys: KeyMap) | LoadFailed(error: string)

  datatype RefreshResult = Refreshed | CoolingDown | RefreshFailed(error: string)

  datatype KeyResult = Found(key: PublicKey) | UnknownKeyID | StaleKeys | LoadError(error: string)

  /** The fields guarded by v.mu. A zero time is None. */
  datatype Cache = Cache(keys: KeyMap, fetched: Option<int>, attempted: Option<int>)

  const EMPTY_CACHE: Cache := Cache(map[], None, None)

  predicate CacheFresh(cache: Cache, now: int) {
    cache.fetched.Some? && now - cache.fetched.value < KEY_CACHE_TTL
  }

  predicate Cooling(cache: Cache, now: int) {
    cache.attempted.Some? && now - cache.attempted.value < REFRESH_COOLDOWN
  }

  function Lookup(keys: KeyMap, kid: string): Option<PublicKey> {
    if kid in keys then Some(keys[kid]) else None
  }

  /** The verdict of `key` after its first read section; None means "refresh". */
  function AfterFirstRead(hit: Option<PublicKey>, isFresh: bool): Option<KeyResult> {
    if hit.Some? && isFresh then Some(Found(hit.value))
    else if isFresh then Some(UnknownKeyID)
    else None
  }

  /** The verdict of `refresh` after its own read section; None means "load". */
  function AfterRecheck(isFresh: bool, isCooling: bool): Option<RefreshResult> {
    if isFresh then Some(Refreshed) else if isCooling then Some(CoolingDown) else None
  }

  /** The verdict of `key` after `refresh`; None means "read the keys again". */
  function AfterRefresh(hit: Option<PublicKey>, result: RefreshResult): Option<KeyResult> {
    match result
    case Refreshed => None
    case CoolingDown => Some(if hit.Some? then StaleKeys else UnknownKeyID)
    case RefreshFailed(error) => Some(if hit.Some? then StaleKeys else LoadError(error))
  }

  function LoadResult(outcome: LoadOutcome): RefreshResult {
    match outcome
    case LoadOk(_) => Refreshed
    case LoadFailed(error) => RefreshFailed(error)
  }

  function AfterReread(found: Option<PublicKey>): KeyResult {
    if found.Some? then Found(found.value) else UnknownKeyID
  }

  /** Where one call of `key` stands, with the local variables that are live there. */
  datatype Pc =
    | Invoked                                                   // about to RLock v.mu
    | Reading                                                   // holds RLock, about to look the key up
    | ReadKey(hit: Option<PublicKey>)                           // holds RLock, about to test freshness
    | ReadFresh(hit: Option<PublicKey>, isFresh: bool)            // holds RLock, about to release it
    | Refreshing(hit: Option<PublicKey>)                        // about to lock refreshMu
    | Locked(hit: Option<PublicKey>)                            // holds refreshMu, about to RLock v.mu
    | Rechecking(hit: Option<PublicKey>)                        // holds both, about to test freshness
    | RecheckedFresh(hit: Option<PublicKey>, isFresh: bool)       // holds both, about to test the cooldown
    | Rechecked(hit: Option<PublicKey>, isFresh: bool, isCooling: bool)
    | LoadReady(hit: Option<PublicKey>)                         // holds refreshMu, about to load
    | Loading(hit: Option<PublicKey>)                           // HTTP in flight
    | Loaded(hit: Option<PublicKey>, outcome: LoadOutcome)      // about to Lock v.mu
    | Announced(hit: Option<PublicKey>, outcome: LoadOutcome)   // Lock waits for the readers to leave
    | Writing(hit: Option<PublicKey>, outcome: LoadOutcome)     // holds the write lock
    | WroteAttempted(hit: Option<PublicKey>, outcome: LoadOutcome)
    | WroteKeys(hit: Option<PublicKey>, outcome: LoadOutcome)
    | Written(hit: Option<PublicKey>, outcome: LoadOutcome)     // about to Unlock v.mu
    | Unlocking(hit: Option<PublicKey>, result: RefreshResult)  // about to unlock refreshMu
    | RereadReady                                               // about to RLock v.mu
    | Rereading                                                 // holds RLock, about to look the key up
    | Reread(found: Option<PublicKey>)                          // holds RLock, about to release it
    | Done(answer: KeyResult)

  datatype Call = Call(kid: string, pc: Pc)

  datatype Stored = Stored(at: int, keys: KeyMap)

  /** A sync.RWMutex is `readers` and `writer`: an announced writer blocks new readers and
      enters once the present ones have left. `starts` and `stores` record the instants at
      which a load began and the sets that were stored. */
  datatype State = State(
    now: int,
    cache: Cache,
    refreshMu: Option<CallId>,
    readers: set<CallId>,
    writer: Option<CallId>,
    calls: map<CallId, Call>,
    starts: seq<int>,
    stores: seq<Stored>)

  datatype Event =
    | Tick(to: int)
    | Invoke(c: CallId, kid: string)
    | Step(c: CallId)
    | LoadEnds(c: CallId, outcome: LoadOutcome)

  function Init(now: int): State {
    State(now, EMPTY_CACHE, None, {}, None, map[], [], [])
  }

  function Move(s: State, c: CallId, pc: Pc): State
    requires c in s.calls
  {
    s.(calls := s.calls[c := Call(s.calls[c].kid, pc)])
  }

  function RLock(s: State, c: CallId): Option<State> {
    if s.writer.Some? then None else Some(s.(readers := s.readers + {c}))
  }

  function RUnlock(s: State, c: CallId): State {
    s.(readers := s.readers - {c})
  }

  function MoveIf(s: Option<State>, c: CallId, pc: Pc): Option<State>
    requires s.Some? ==> c in s.value.calls
  {
    if s.Some? then Some(Move(s.value, c, pc)) else None
  }

  /** The own steps of `key`: its first read section, and its second one after a refresh. */
  function StepKey(s: State, c: CallId): Option<State>
    requires c in s.calls
  {
    var kid := s.calls[c].kid;
    match s.calls[c].pc
    case Invoked => MoveIf(RLock(s, c), c, Reading)
    case Reading => Some(Move(s, c, ReadKey(Lookup(s.cache.keys, kid))))
    case ReadKey(hit) => Some(Move(s, c, ReadFresh(hit, CacheFresh(s.cache, s.now))))
    case ReadFresh(hit, isFresh) =>
      var answer := AfterFirstRead(hit, isFresh);
      Some(Move(RUnlock(s, c), c, if answer.Some? then Done(answer.value) else Refreshing(hit)))
    case RereadReady => MoveIf(RLock(s, c), c, Rereading)
    case Rereading => Some(Move(s, c, Reread(Lookup(s.cache.keys, kid))))
    case Reread(found) => Some(Move(RUnlock(s, c), c, Done(AfterReread(found))))
    case _ => None
  }

  /** The own steps of `refresh` up to the load, and its last one. */
  function StepRefresh(s: State, c: CallId): Option<State>
    requires c in s.calls
  {
    match s.calls[c].pc
    case Refreshing(hit) =>
      if s.refreshMu.Some? then None else Some(Move(s.(refreshMu := Some(c)), c, Locked(hit)))
    case Locked(hit) => MoveIf(RLock(s, c), c, Rechecking(hit))
    case Rechecking(hit) => Some(Move(s, c, RecheckedFresh(hit, CacheFresh(s.cache, s.now))))
    case RecheckedFresh(hit, isFresh) => Some(Move(s, c, Rechecked(hit, isFresh, Cooling(s.cache, s.now))))
    case Rechecked(hit, isFresh, isCooling) =>
      var result := AfterRecheck(isFresh, isCooling);
      Some(Move(RUnlock(s, c), c, if result.Some? then Unlocking(hit, result.value) else LoadReady(hit)))
    case LoadReady(hit) => Some(Move(s.(starts := s.starts + [s.now]), c, Loading(hit)))
    case Unlocking(hit, result) =>
      var answer := AfterRefresh(hit, result);
      Some(Move(s.(refreshMu := None), c, if answer.Some? then Done(answer.value) else RereadReady))
    case _ => None
  }

  /** The own steps of the write section of `refresh`. */
  function StepStore(s: State, c: CallId): Option<State>
    requires c in s.calls
  {
    match s.calls[c].pc
    case Loaded(hit, outcome) =>
      if s.writer.Some? then None else Some(Move(s.(writer := Some(c)), c, Announced(hit, outcome)))
    case Announced(hit, outcome) =>
      if s.readers != {} then None else Some(Move(s, c, Writing(hit, outcome)))
    case Writing(hit, outcome) =>
      Some(Move(s.(cache := s.cache.(attempted := Some(s.now))), c, WroteAttempted(hit, outcome)))
    case WroteAttempted(hit, LoadOk(keys)) =>
      Some(Move(s.(cache := s.cache.(keys := keys)), c, WroteKeys(hit, LoadOk(keys))))
    case WroteAttempted(hit, LoadFailed(error)) => Some(Move(s, c, Written(hit, LoadFailed(error))))
    case WroteKeys(hit, outcome) =>
      Some(Move(s.(cache := s.cache.(fetched := Some(s.now)),
                   stores := s.stores + [Stored(s.now, s.cache.keys)]), c, Written(hit, outcome)))
    case Written(hit, outcome) => Some(Move(s.(writer := None), c, Unlocking(hit, LoadResult(outcome))))
    case _ => None
  }

  predicate InKey(pc: Pc) {
    pc.Invoked? || pc.Reading? || pc.ReadKey? || pc.ReadFresh? || pc.RereadReady? || pc.Rereading? || pc.Reread?
  }

  predicate InStore(pc: Pc) {
    pc.Loaded? || pc.Announced? || pc.Writing? || pc.WroteAttempted? || pc.WroteKeys? || pc.Written?
  }

  /** The next own step of call `c`; None when it is blocked, loading, or finished. */
  function StepCall(s: State, c: CallId): Option<State>
    requires c in s.calls
  {
    var pc := s.calls[c].pc;
    if InKey(pc) then StepKey(s, c) else if InStore(pc) then StepStore(s, c) else StepRefresh(s, c)
  }

  /** The state after an event; None when the event cannot happen. */
  function Next(s: State, e: Event): Option<State> {
    match e
    case Tick(to) => if s.now <= to then Some(s.(now := to)) else None
    case Invoke(c, kid) =>
      if c in s.calls then None else Some(s.(calls := s.calls[c := Call(kid, Invoked)]))
    case Step(c) => if c in s.calls then StepCall(s, c) else None
    case LoadEnds(c, outcome) =>
      if c in s.calls && s.calls[c].pc.Loading?
      then Some(Move(s, c, Loaded(s.calls[c].pc.hit, outcome))) else None
  }

  /** A run: the states visited and the events between them, from an empty cache. */
  ghost predicate IsRun(states: seq<State>, events: seq<Event>) {
    && |states| == |events| + 1
    && states[0] == Init(states[0].now)
    && forall i :: 0 <= i < |events| ==> Next(states[i], events[i]) == Some(states[i + 1])
  }
}
