/** A handler that runs alone in the machine can do nothing but what the methods of Server are specified to do:
    the other half of `SoloHealth` and `SoloSign`. */
module ServerAlone {
  import opened Common
  import opened TokenProtocol
  import opened Server
  import opened TokenInvariant

  /** Events of handler `h`, of its peer and its backend, and of the clock. */
  predicate Alone(e: Event, h: HandlerId) {
    e.Tick? || e.h == h
  }

  // ---------------------------------------------------------------- /health

  predicate InOrder(t: Readings) {
    t.outer <= t.inner <= t.stored
  }

  /** A handler that alone has run from `cache`, and with `token` slots taken by others, stands at pc with the
      cache `now`; readings that are still to come equal the last one. */
  ghost predicate TracksHealth(cfg: Config, token: nat, cache: HealthCache, pc: Pc, now: HealthCache,
                               t: Readings, w: HealthWorld) {
    var missed := CachedHealth(cfg, cache, t.outer).None?;
    var admitted := missed && token < TOKEN_SLOTS;
    var probing := admitted && !w.endedBefore && CachedHealth(cfg, cache, t.inner).None?;
    match pc
    case CheckingCache => now == cache
    case HealthWaits => now == cache && missed
    case HealthEntered => now == cache && admitted
    case Rechecking => now == cache && admitted && !w.endedBefore
    case ProbeReady => now == cache && probing
    case Probing => now == cache && probing
    case Probed(result) => now == cache && probing && w.probe == ProbeReturned(result)
    case Storing(result) => now == cache && probing && w.probe == ProbeReturned(result) && !w.endedAfter
    case HealthLeaves(reply) => (reply, now) == HealthOutcome(cfg, token, cache, t, w)
    case Done(reply) => (reply, now) == HealthOutcome(cfg, token, cache, t, w)
    case _ => false
  }

  /** The readings after a step from pc. */
  function ReadingsAfter(t: Readings, pc: Pc, now: int): Readings {
    if pc.CheckingCache? then Readings(now, now, now)
    else if pc.Rechecking? then t.(inner := now, stored := now)
    else if pc.Storing? then t.(stored := now)
    else t
  }

  /** What an event tells about the world of the handler. */
  function HealthLearned(w: HealthWorld, handler: Handler, e: Event): HealthWorld {
    match e
    case GiveUp(_) => w.(endedBefore := true)
    case HealthReturns(_, result) => w.(probe := ProbeReturned(result))
    case BackendPanics(_) => w.(probe := ProbePanicked)
    case Step(_) =>
      if handler.pc.HealthEntered? then w.(endedBefore := handler.canceled)
      else if handler.pc.Probed? then w.(endedAfter := handler.canceled)
      else w
    case _ => w
  }

  lemma LoneHealthStep(cfg: Config, token: nat, cache: HealthCache, s: State, h: HandlerId, s': State,
                       t: Readings, w: HealthWorld)
    requires h in s.handlers && StepHealth(cfg, s, h) == Some(s') && h in s'.handlers
    requires TracksHealth(cfg, token, cache, s.handlers[h].pc, s.cache, t, w)
    requires s.handlers[h].pc.HealthWaits? ==> s.token == token
    ensures TracksHealth(cfg, token, cache, s'.handlers[h].pc, s'.cache,
                         ReadingsAfter(t, s.handlers[h].pc, s.now), HealthLearned(w, s.handlers[h], Step(h)))
  {
  }

  lemma LoneHealthEvent(cfg: Config, token: nat, cache: HealthCache, s: State, e: Event, h: HandlerId, s': State,
                        t: Readings, w: HealthWorld)
    requires h in s.handlers && External(cfg, s, e, h) == Some(s') && h in s'.handlers
    requires TracksHealth(cfg, token, cache, s.handlers[h].pc, s.cache, t, w)
    ensures TracksHealth(cfg, token, cache, s'.handlers[h].pc, s'.cache, t, HealthLearned(w, s.handlers[h], e))
  {
  }

  /** The handler holds a token slot exactly where it is inside withToken, and the others' slots stay. */
  predicate HoldsItsOwn(s: State, h: HandlerId, token: nat, uploads: nat)
    requires h in s.handlers
  {
    && s.token == token + Claims(InToken(s.handlers[h].pc)) && s.token <= TOKEN_SLOTS
    && s.uploads == uploads + Claims(HoldsSlot(s.handlers[h].pc)) && s.uploads <= MAX_IN_FLIGHT_UPLOADS
  }

  lemma LoneHealthNext(cfg: Config, token: nat, uploads: nat, cache: HealthCache, s: State, e: Event, s': State,
                       h: HandlerId, t: Readings, w: HealthWorld) returns (t': Readings, w': HealthWorld)
    requires Next(cfg, s, e) == Some(s') && Alone(e, h) && h in s.handlers
    requires TracksHealth(cfg, token, cache, s.handlers[h].pc, s.cache, t, w) && InOrder(t) && t.stored <= s.now
    requires HoldsItsOwn(s, h, token, uploads)
    ensures h in s'.handlers && InOrder(t') && t.outer <= t'.outer && t'.stored <= s'.now
    ensures TracksHealth(cfg, token, cache, s'.handlers[h].pc, s'.cache, t', w')
    ensures HoldsItsOwn(s', h, token, uploads)
  {
    t', w' := t, w;
    match e
    case ArriveHealth(_) =>
    case ArriveSign(_) =>
    case Tick(_) =>
    case Cancel(_) =>
    case Step(_) =>
      HealthIsBalanced(cfg, s, h, s');
      LoneHealthStep(cfg, token, cache, s, h, s', t, w);
      t', w' := ReadingsAfter(t, s.handlers[h].pc, s.now), HealthLearned(w, s.handlers[h], e);
    case _ =>
      ExternalIsBalanced(cfg, s, e, h, s');
      LoneHealthEvent(cfg, token, cache, s, e, h, s', t, w);
      w' := HealthLearned(w, s.handlers[h], e);
  }

  lemma {:induction false} LoneHealthRun(cfg: Config, states: seq<State>, events: seq<Event>, n: nat, h: HandlerId)
    returns (t: Readings, w: HealthWorld)
    requires IsPath(cfg, states, events) && n < |states| && h !in states[0].handlers
    requires states[0].token <= TOKEN_SLOTS && states[0].uploads <= MAX_IN_FLIGHT_UPLOADS
    requires forall i :: 0 <= i < |events| ==> Alone(events[i], h) && !events[i].ArriveSign?
    ensures InOrder(t) && states[0].now <= t.outer && t.stored <= states[n].now
    ensures h !in states[n].handlers ==> states[n] == states[0].(now := states[n].now)
    ensures h in states[n].handlers ==>
              TracksHealth(cfg, states[0].token, states[0].cache, states[n].handlers[h].pc, states[n].cache, t, w)
    ensures h in states[n].handlers ==> HoldsItsOwn(states[n], h, states[0].token, states[0].uploads)
  {
    var s0 := states[0];
    if n == 0 {
      t, w := Readings(s0.now, s0.now, s0.now), HealthWorld(false, ProbePanicked, false);
    } else {
      t, w := LoneHealthRun(cfg, states, events, n - 1, h);
      if h in states[n - 1].handlers {
        t, w := LoneHealthNext(cfg, s0.token, s0.uploads, s0.cache, states[n - 1], events[n - 1], states[n], h, t, w);
      }
    }
  }

  /** When only the /health handler `h` and the clock move, its reply and the cache are what the method is
      specified to give, for some readings inside the call and some behaviour of its peer and its backend; both
      channels are as they were. */
  lemma LoneHealth(cfg: Config, states: seq<State>, events: seq<Event>, n: nat, h: HandlerId)
    returns (t: Readings, w: HealthWorld)
    requires IsPath(cfg, states, events) && n < |states| && h !in states[0].handlers
    requires states[0].token <= TOKEN_SLOTS && states[0].uploads <= MAX_IN_FLIGHT_UPLOADS
    requires forall i :: 0 <= i < |events| ==> Alone(events[i], h) && !events[i].ArriveSign?
    requires h in states[n].handlers && states[n].handlers[h].pc.Done?
    ensures InOrder(t) && states[0].now <= t.outer && t.stored <= states[n].now
    ensures (states[n].handlers[h].pc.reply, states[n].cache)
            == HealthOutcome(cfg, states[0].token, states[0].cache, t, w)
    ensures HealthSays(cfg, states[0].token, states[0].cache, t, w, states[n].handlers[h].pc.reply, states[n].cache)
    ensures states[n].token == states[0].token && states[n].uploads == states[0].uploads
  {
    t, w := LoneHealthRun(cfg, states, events, n, h);
  }

  // ---------------------------------------------------------------- /v1/sign

  /** The same for a /v1/sign handler that has called Signer.Sign `signs` times. */
  predicate TracksSign(token: nat, uploads: nat, pc: Pc, signs: nat, w: SignWorld) {
    var slotted := w.authorized && uploads < MAX_IN_FLIGHT_UPLOADS;
    var accepted := slotted && w.verdict.Accepted?;
    var admitted := accepted && token < TOKEN_SLOTS;
    match pc
    case Authenticating => signs == 0
    case TakingSlot => signs == 0 && w.authorized
    case Receiving => signs == 0 && slotted
    case SignWaits => signs == 0 && accepted
    case SignEntered => signs == 0 && admitted
    case SignReady => signs == 0 && admitted && !w.ended
    case Signing => signs == 1 && admitted && !w.ended
    case SignLeaves(signed, reply) =>
      if signed then signs == 1 && admitted && !w.ended && w.sign == SignReturned(true)
      else (reply, signs) == SignOutcome(token, uploads, w)
    case Responding => signs == 1 && admitted && !w.ended && w.sign == SignReturned(true)
    case Cleaning(reply) => (reply, signs) == SignOutcome(token, uploads, w)
    case LeavingSlot(reply) => (reply, signs) == SignOutcome(token, uploads, w)
    case Done(reply) => (reply, signs) == SignOutcome(token, uploads, w)
    case _ => false
  }

  function SignLearned(cfg: Config, w: SignWorld, handler: Handler, e: Event): SignWorld {
    match e
    case Authenticated(_, ok) => w.(authorized := ok)
    case UploadEnds(_, verdict) => w.(verdict := verdict)
    case Received(_, n) => if handler.bytes + n > cfg.maxBody then w.(verdict := Refused(TooLarge)) else w
    case GiveUp(_) => w.(ended := true)
    case SignReturns(_, ok) => w.(sign := SignReturned(ok))
    case BackendPanics(_) => w.(sign := SignPanicked)
    case ResponseEnds(_, status) => w.(written := status == 200)
    case Step(_) => if handler.pc.SignEntered? then w.(ended := handler.canceled) else w
    case _ => w
  }

  lemma LoneSignStep(cfg: Config, token: nat, uploads: nat, s: State, h: HandlerId, s': State, w: SignWorld)
    requires h in s.handlers && StepSign(s, h) == Some(s') && h in s'.handlers
    requires TracksSign(token, uploads, s.handlers[h].pc, s.handlers[h].signs, w)
    requires HoldsItsOwn(s, h, token, uploads)
    ensures TracksSign(token, uploads, s'.handlers[h].pc, s'.handlers[h].signs,
                       SignLearned(cfg, w, s.handlers[h], Step(h)))
    ensures s'.cache == s.cache
  {
  }

  lemma LoneSignEvent(cfg: Config, token: nat, uploads: nat, s: State, e: Event, h: HandlerId, s': State, w: SignWorld)
    requires h in s.handlers && External(cfg, s, e, h) == Some(s') && h in s'.handlers
    requires TracksSign(token, uploads, s.handlers[h].pc, s.handlers[h].signs, w)
    ensures TracksSign(token, uploads, s'.handlers[h].pc, s'.handlers[h].signs, SignLearned(cfg, w, s.handlers[h], e))
  {
  }

  lemma LoneSignNext(cfg: Config, token: nat, uploads: nat, s: State, e: Event, s': State, h: HandlerId, w: SignWorld)
    returns (w': SignWorld)
    requires Next(cfg, s, e) == Some(s') && Alone(e, h) && h in s.handlers
    requires TracksSign(token, uploads, s.handlers[h].pc, s.handlers[h].signs, w) && HoldsItsOwn(s, h, token, uploads)
    ensures h in s'.handlers && s'.cache == s.cache
    ensures TracksSign(token, uploads, s'.handlers[h].pc, s'.handlers[h].signs, w')
    ensures HoldsItsOwn(s', h, token, uploads)
  {
    w' := w;
    match e
    case ArriveHealth(_) =>
    case ArriveSign(_) =>
    case Tick(_) =>
    case Cancel(_) =>
    case Step(_) =>
      SignIsBalanced(s, h, s');
      LoneSignStep(cfg, token, uploads, s, h, s', w);
      w' := SignLearned(cfg, w, s.handlers[h], e);
    case _ =>
      ExternalIsBalanced(cfg, s, e, h, s');
      LoneSignEvent(cfg, token, uploads, s, e, h, s', w);
      w' := SignLearned(cfg, w, s.handlers[h], e);
  }

  lemma {:induction false} LoneSignRun(cfg: Config, states: seq<State>, events: seq<Event>, n: nat, h: HandlerId)
    returns (w: SignWorld)
    requires IsPath(cfg, states, events) && n < |states| && h !in states[0].handlers
    requires states[0].token <= TOKEN_SLOTS && states[0].uploads <= MAX_IN_FLIGHT_UPLOADS
    requires forall i :: 0 <= i < |events| ==> Alone(events[i], h) && !events[i].ArriveHealth?
    ensures states[n].cache == states[0].cache
    ensures h !in states[n].handlers ==> states[n] == states[0].(now := states[n].now)
    ensures h in states[n].handlers ==>
              var handler := states[n].handlers[h];
              TracksSign(states[0].token, states[0].uploads, handler.pc, handler.signs, w)
    ensures h in states[n].handlers ==> HoldsItsOwn(states[n], h, states[0].token, states[0].uploads)
  {
    var s0 := states[0];
    if n == 0 {
      w := SignWorld(false, Accepted, false, SignPanicked, false);
    } else {
      w := LoneSignRun(cfg, states, events, n - 1, h);
      if h in states[n - 1].handlers {
        w := LoneSignNext(cfg, s0.token, s0.uploads, states[n - 1], events[n - 1], states[n], h, w);
      }
    }
  }

  /** When only the /v1/sign handler `h` and the clock move, its reply and its calls of Signer.Sign are what the
      method is specified to give, for some behaviour of its peer, its backend and its disk; the cache and both
      channels are as they were. */
  lemma LoneSign(cfg: Config, states: seq<State>, events: seq<Event>, n: nat, h: HandlerId) returns (w: SignWorld)
    requires IsPath(cfg, states, events) && n < |states| && h !in states[0].handlers
    requires states[0].token <= TOKEN_SLOTS && states[0].uploads <= MAX_IN_FLIGHT_UPLOADS
    requires forall i :: 0 <= i < |events| ==> Alone(events[i], h) && !events[i].ArriveHealth?
    requires h in states[n].handlers && states[n].handlers[h].pc.Done?
    ensures (states[n].handlers[h].pc.reply, states[n].handlers[h].signs)
            == SignOutcome(states[0].token, states[0].uploads, w)
    ensures SignSays(states[0].token, states[0].uploads, w, states[n].handlers[h].pc.reply,
                     states[n].handlers[h].signs)
    ensures states[n].cache == states[0].cache
    ensures states[n].token == states[0].token && states[n].uploads == states[0].uploads
  {
    w := LoneSignRun(cfg, states, events, n, h);
  }
}
