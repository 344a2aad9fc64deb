/** The request handlers of signerd as a transition system: unboundedly many /health and /v1/sign
    handlers share a one-slot token channel, a two-slot upload channel and the health cache.

    Contexts can end at any time and backends can panic. Every channel operation, context test,
    cache section and backend call is a step of its own; healthMu makes a cache section one step.
*/
module TokenProtocol {
  import opened Common

  const TOKEN_SLOTS: nat := 1
  const MAX_IN_FLIGHT_UPLOADS: nat := 2

  type HandlerId = nat

  /** A negative TTL disables the health cache. */
  datatype Config = Config(healthCacheTTL: int, maxBody: nat)

  /** Whether Signer.Health returned nil. */
  datatype Health = Healthy | Unhealthy

  datatype HealthCache = HealthCache(healthAt: Option<int>, healthErr: Health)

  function CachedHealth(cfg: Config, cache: HealthCache, now: int): Option<Health> {
    if cfg.healthCacheTTL < 0 then None
    else if cache.healthAt.None? || now - cache.healthAt.value >= cfg.healthCacheTTL then None
    else Some(cache.healthErr)
  }

  function StoreHealth(cfg: Config, cache: HealthCache, result: Health, now: int): HealthCache {
    if cfg.healthCacheTTL < 0 then cache else HealthCache(Some(now), result)
  }

  datatype Reply =
    | HealthCached(result: Health)
    | HealthProbed(result: Health)
    | HealthCanceled                 // the wait for the token, or the test after it, found the context done
    | SignReply(status: int)
    | Aborted                        // a panicking backend: the handler unwinds without a reply

  /** Why an upload is refused: neither PE nor MSI, more than MaxBody (which shows as it is received), unsafe
      metadata, or anything else. */
  datatype Refusal = NotSignable | TooLarge | BadMetadata | Internal

  /** What becomes of an upload before the token is needed. */
  datatype Verdict = Accepted | Refused(reason: Refusal)

  /** replySignError. */
  function StatusOf(reason: Refusal): int {
    match reason
    case NotSignable => 415
    case TooLarge => 413
    case BadMetadata => 400
    case Internal => 500
  }

  datatype Pc =
    // handleHealth
    | CheckingCache                  // cachedHealth outside the token
    | HealthWaits                    // select: token or ctx.Done
    | HealthEntered                  // inside withToken, about to test ctx.Err
    | Rechecking                     // cachedHealth inside the token
    | ProbeReady                     // about to call Signer.Health
    | Probing
    | Probed(result: Health)         // about to test ctx.Err
    | Storing(result: Health)        // about to store
    | HealthLeaves(reply: Reply)     // about to release the token
    // handleSign
    | Authenticating
    | TakingSlot                     // select: upload slot or default
    | Receiving                      // streaming and checking the body
    | SignWaits                      // select: token or ctx.Done
    | SignEntered                    // inside withToken, about to test ctx.Err
    | SignReady                      // about to call Signer.Sign
    | Signing
    | SignLeaves(signed: bool, reply: Reply)   // about to release the token
    | Responding                     // copying the signed file to the client
    | Cleaning(reply: Reply)         // about to remove the temp dir
    | LeavingSlot(reply: Reply)      // about to release the upload slot
    | Done(reply: Reply)

  /** `bytes` is what the request keeps on disk, `signs` how often it has called Signer.Sign. */
  datatype Handler = Handler(pc: Pc, canceled: bool, bytes: nat, signs: nat)

  /** `stores` records the instants at which a health result was stored. */
  datatype State = State(
    now: int,
    token: nat,
    uploads: nat,
    cache: HealthCache,
    handlers: map<HandlerId, Handler>,
    stores: seq<int>)

  datatype Event =
    | Tick(to: int)
    | ArriveHealth(h: HandlerId)
    | ArriveSign(h: HandlerId)
    | Cancel(h: HandlerId)
    | Step(h: HandlerId)
    | GiveUp(h: HandlerId)                       // the ctx.Done branch of the select in withToken
    | Authenticated(h: HandlerId, ok: bool)
    | Received(h: HandlerId, n: nat)
    | UploadEnds(h: HandlerId, verdict: Verdict)
    | HealthReturns(h: HandlerId, result: Health)
    | SignReturns(h: HandlerId, ok: bool)
    | BackendPanics(h: HandlerId)
    | ResponseEnds(h: HandlerId, status: int)    // 500 when the signed file could not be opened

  function Init(now: int): State {
    State(now, 0, 0, HealthCache(None, Healthy), map[], [])
  }

  function Put(s: State, h: HandlerId, handler: Handler): State {
    s.(handlers := s.handlers[h := handler])
  }

  function Move(s: State, h: HandlerId, pc: Pc): State
    requires h in s.handlers
  {
    Put(s, h, s.handlers[h].(pc := pc))
  }

  /** Channel send; None blocks. */
  function Acquire(s: State, h: HandlerId, pc: Pc): Option<State>
    requires h in s.handlers
  {
    if s.token < TOKEN_SLOTS then Some(Move(s.(token := s.token + 1), h, pc)) else None
  }

  /** Channel receive; None blocks. */
  function Release(s: State, h: HandlerId, pc: Pc): Option<State>
    requires h in s.handlers
  {
    if s.token > 0 then Some(Move(s.(token := s.token - 1), h, pc)) else None
  }

  function StepHealth(cfg: Config, s: State, h: HandlerId): Option<State>
    requires h in s.handlers
  {
    match s.handlers[h].pc
    case CheckingCache =>
      var hit := CachedHealth(cfg, s.cache, s.now);
      Some(Move(s, h, if hit.Some? then Done(HealthCached(hit.value)) else HealthWaits))
    case HealthWaits => Acquire(s, h, HealthEntered)
    case HealthEntered =>
      Some(Move(s, h, if s.handlers[h].canceled then HealthLeaves(HealthCanceled) else Rechecking))
    case Rechecking =>
      var hit := CachedHealth(cfg, s.cache, s.now);
      Some(Move(s, h, if hit.Some? then HealthLeaves(HealthCached(hit.value)) else ProbeReady))
    case ProbeReady => Some(Move(s, h, Probing))
    case Probed(result) =>
      Some(Move(s, h, if s.handlers[h].canceled then HealthLeaves(HealthProbed(result)) else Storing(result)))
    case Storing(result) =>
      var stored := s.(cache := StoreHealth(cfg, s.cache, result, s.now),
                       stores := if cfg.healthCacheTTL < 0 then s.stores else s.stores + [s.now]);
      Some(Move(stored, h, HealthLeaves(HealthProbed(result))))
    case HealthLeaves(reply) => Release(s, h, Done(reply))
    case _ => None
  }

  function StepSign(s: State, h: HandlerId): Option<State>
    requires h in s.handlers
  {
    match s.handlers[h].pc
    case TakingSlot =>
      Some(if s.uploads < MAX_IN_FLIGHT_UPLOADS then Move(s.(uploads := s.uploads + 1), h, Receiving)
           else Move(s, h, Done(SignReply(503))))
    case SignWaits => Acquire(s, h, SignEntered)
    case SignEntered =>
      Some(Move(s, h, if s.handlers[h].canceled then SignLeaves(false, SignReply(500)) else SignReady))
    case SignReady => Some(Put(s, h, s.handlers[h].(pc := Signing, signs := s.handlers[h].signs + 1)))
    case SignLeaves(signed, reply) => Release(s, h, if signed then Responding else Cleaning(reply))
    case Cleaning(reply) => Some(Put(s, h, s.handlers[h].(pc := LeavingSlot(reply), bytes := 0)))
    case LeavingSlot(reply) =>
      if s.uploads > 0 then Some(Move(s.(uploads := s.uploads - 1), h, Done(reply))) else None
    case _ => None
  }

  predicate InHealth(pc: Pc) {
    pc.CheckingCache? || pc.HealthWaits? || pc.HealthEntered? || pc.Rechecking? || pc.ProbeReady?
    || pc.Probing? || pc.Probed? || pc.Storing? || pc.HealthLeaves?
  }

  function StepHandler(cfg: Config, s: State, h: HandlerId): Option<State>
    requires h in s.handlers
  {
    if InHealth(s.handlers[h].pc) then StepHealth(cfg, s, h) else StepSign(s, h)
  }

  /** What the outside world does to handler `h`: its peer, its disk, its backend. */
  function External(cfg: Config, s: State, e: Event, h: HandlerId): Option<State>
    requires h in s.handlers
  {
    var handler := s.handlers[h];
    var pc := handler.pc;
    match e
    case GiveUp(_) =>
      if !handler.canceled then None
      else if pc.HealthWaits? then Some(Move(s, h, Done(HealthCanceled)))
      else if pc.SignWaits? then Some(Move(s, h, Cleaning(SignReply(500))))
      else None
    case Authenticated(_, ok) =>
      if pc.Authenticating? then Some(Move(s, h, if ok then TakingSlot else Done(SignReply(401)))) else None
    case Received(_, n) =>
      if !pc.Receiving? || n == 0 then None
      else if handler.bytes + n <= cfg.maxBody then Some(Put(s, h, handler.(bytes := handler.bytes + n)))
      else Some(Put(s, h, handler.(pc := Cleaning(SignReply(StatusOf(TooLarge))), bytes := cfg.maxBody)))
    case UploadEnds(_, Accepted) =>
      if pc.Receiving? then Some(Move(s, h, SignWaits)) else None
    case UploadEnds(_, Refused(reason)) =>
      if pc.Receiving? && reason != TooLarge then Some(Move(s, h, Cleaning(SignReply(StatusOf(reason))))) else None
    case HealthReturns(_, result) =>
      if pc.Probing? then Some(Move(s, h, Probed(result))) else None
    case SignReturns(_, ok) =>
      if pc.Signing? then Some(Move(s, h, SignLeaves(ok, SignReply(500)))) else None
    case BackendPanics(_) =>
      if pc.Probing? then Some(Move(s, h, HealthLeaves(Aborted)))
      else if pc.Signing? then Some(Move(s, h, SignLeaves(false, Aborted)))
      else None
    case ResponseEnds(_, status) =>
      if pc.Responding? && status in {200, 500} then Some(Move(s, h, Cleaning(SignReply(status)))) else None
    case _ => None
  }

  function NewHandler(pc: Pc): Handler {
    Handler(pc, false, 0, 0)
  }

  /** The state after an event; None when the event cannot happen. */
  function Next(cfg: Config, s: State, e: Event): Option<State> {
    match e
    case Tick(to) => if s.now <= to then Some(s.(now := to)) else None
    case ArriveHealth(h) => if h in s.handlers then None else Some(Put(s, h, NewHandler(CheckingCache)))
    case ArriveSign(h) => if h in s.handlers then None else Some(Put(s, h, NewHandler(Authenticating)))
    case Cancel(h) => if h in s.handlers then Some(Put(s, h, s.handlers[h].(canceled := true))) else None
    case Step(h) => if h in s.handlers then StepHandler(cfg, s, h) else None
    case _ => if e.h in s.handlers then External(cfg, s, e, e.h) else None
  }

  ghost predicate IsRun(cfg: Config, states: seq<State>, events: seq<Event>) {
    && |states| == |events| + 1
    && states[0] == Init(states[0].now)
    && forall i :: 0 <= i < |events| ==> Next(cfg, states[i], events[i]) == Some(states[i + 1])
  }
}
