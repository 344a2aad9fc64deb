/** The server object, whose channels and cache fields the handlers change in place, and the two handlers
    when they run undisturbed; `SoloHealth` and `SoloSign`, with `LoneHealth` and `LoneSign` of ServerAlone, tie
    them to the transition system. */
module Server {
  import opened Common
  import opened TokenProtocol

  /** The clock readings of one /health handler. */
  datatype Readings = Readings(outer: int, inner: int, stored: int)

  datatype ProbeEnd = ProbeReturned(result: Health) | ProbePanicked
  datatype SignEnd = SignReturned(ok: bool) | SignPanicked

  /** What a /health handler meets: the end of its context before the test and after the probe, and the probe. */
  datatype HealthWorld = HealthWorld(endedBefore: bool, probe: ProbeEnd, endedAfter: bool)

  /** What a /v1/sign handler meets. */
  datatype SignWorld = SignWorld(authorized: bool, verdict: Verdict, ended: bool, sign: SignEnd, written: bool)

  function ResponseStatus(written: bool): int {
    if written then 200 else 500
  }

  /** The reply of a /health handler and the cache it leaves. When the token is taken and nothing else
      happens, the wait ends with the context. */
  function HealthOutcome(cfg: Config, token: nat, cache: HealthCache, t: Readings, w: HealthWorld)
    : (Reply, HealthCache)
  {
    var outer := CachedHealth(cfg, cache, t.outer);
    var inner := CachedHealth(cfg, cache, t.inner);
    if outer.Some? then (HealthCached(outer.value), cache)
    else if token >= TOKEN_SLOTS || w.endedBefore then (HealthCanceled, cache)
    else if inner.Some? then (HealthCached(inner.value), cache)
    else match w.probe
         case ProbePanicked => (Aborted, cache)
         case ProbeReturned(result) =>
           (HealthProbed(result), if w.endedAfter then cache else StoreHealth(cfg, cache, result, t.stored))
  }

  /** The reply of a /v1/sign handler and its calls of Signer.Sign. */
  function SignOutcome(token: nat, uploads: nat, w: SignWorld): (Reply, nat) {
    if !w.authorized then (SignReply(401), 0)
    else if uploads >= MAX_IN_FLIGHT_UPLOADS then (SignReply(503), 0)
    else if w.verdict.Refused? then (SignReply(StatusOf(w.verdict.reason)), 0)
    else if token >= TOKEN_SLOTS || w.ended then (SignReply(500), 0)
    else match w.sign
         case SignPanicked => (Aborted, 1)
         case SignReturned(ok) => (SignReply(if ok then ResponseStatus(w.written) else 500), 1)
  }

  /** A stored result that is younger than the TTL. */
  predicate LiveAt(cfg: Config, cache: HealthCache, at: int) {
    cfg.healthCacheTTL >= 0 && cache.healthAt.Some? && at < cache.healthAt.value + cfg.healthCacheTTL
  }

  /** What an undisturbed /health owes, in plain terms: a live result is repeated without a probe, and a probe's
      result is kept unless the context has ended or the cache is switched off. */
  predicate HealthSays(cfg: Config, token: nat, before: HealthCache, t: Readings, w: HealthWorld,
                       reply: Reply, after: HealthCache) {
    if LiveAt(cfg, before, t.outer) then reply == HealthCached(before.healthErr) && after == before
    else if token >= 1 || w.endedBefore then reply == HealthCanceled && after == before
    else if LiveAt(cfg, before, t.inner) then reply == HealthCached(before.healthErr) && after == before
    else
      match w.probe
      case ProbePanicked => reply == Aborted && after == before
      case ProbeReturned(result) =>
        reply == HealthProbed(result)
        && after == if w.endedAfter || cfg.healthCacheTTL < 0 then before else HealthCache(Some(t.stored), result)
  }

  /** What an undisturbed /v1/sign owes, in plain terms: each status, and how often the backend signs. */
  predicate SignSays(token: nat, uploads: nat, w: SignWorld, reply: Reply, signs: nat) {
    if !w.authorized then reply == SignReply(401) && signs == 0
    else if uploads >= 2 then reply == SignReply(503) && signs == 0
    else if w.verdict.Refused? then
      signs == 0
      && (match w.verdict.reason
          case NotSignable => reply == SignReply(415)
          case TooLarge => reply == SignReply(413)
          case BadMetadata => reply == SignReply(400)
          case Internal => reply == SignReply(500))
    else if token >= 1 || w.ended then reply == SignReply(500) && signs == 0
    else if w.sign.SignPanicked? then reply == Aborted && signs == 1
    else reply == SignReply(if w.sign.ok && w.written then 200 else 500) && signs == 1
  }

  lemma OutcomesSay(cfg: Config, token: nat, uploads: nat, cache: HealthCache, t: Readings, w: HealthWorld,
                    v: SignWorld)
    ensures HealthSays(cfg, token, cache, t, w, HealthOutcome(cfg, token, cache, t, w).0,
                       HealthOutcome(cfg, token, cache, t, w).1)
    ensures SignSays(token, uploads, v, SignOutcome(token, uploads, v).0, SignOutcome(token, uploads, v).1)
  {
  }

  class Server {
    const cfg: Config
    var token: nat
    var uploads: nat
    var healthAt: Option<int>
    var healthErr: Health
    var clock: int

    function Cache(): HealthCache
      reads this
    {
      HealthCache(healthAt, healthErr)
    }

    constructor (cfg: Config, now: int)
      ensures this.cfg == cfg && token == 0 && uploads == 0 && Cache() == Init(now).cache && clock == now
    {
      this.cfg := cfg;
      token, uploads, healthAt, healthErr, clock := 0, 0, None, Healthy, now;
    }

    method Now() returns (t: int)
      modifies this`clock
      ensures old(clock) <= clock == t
    {
      var elapsed: int :| 0 <= elapsed;
      clock := clock + elapsed;
      t := clock;
    }

    method LookUp() returns (hit: Option<Health>)
      modifies this`clock
      ensures old(clock) <= clock && hit == CachedHealth(cfg, Cache(), clock)
    {
      if cfg.healthCacheTTL < 0 {
        return None;
      }
      var now := Now();
      if healthAt.None? || now - healthAt.value >= cfg.healthCacheTTL {
        return None;
      }
      return Some(healthErr);
    }

    method Store(result: Health)
      modifies this`clock, this`healthAt, this`healthErr
      ensures old(clock) <= clock && Cache() == StoreHealth(cfg, old(Cache()), result, clock)
    {
      if cfg.healthCacheTTL < 0 {
        return;
      }
      var now := Now();
      healthAt, healthErr := Some(now), result;
    }

    /** withToken up to the operation. With the slot taken, and nobody else moving, the select ends with the
        context; with the slot free and the context ended it takes either branch. */
    method EnterToken(ended: bool) returns (entered: bool)
      modifies this`token
      ensures entered == (old(token) < TOKEN_SLOTS && !ended)
      ensures token == old(token) + if entered then 1 else 0
    {
      var prefersDone: bool := *;
      if token >= TOKEN_SLOTS || (ended && prefersDone) {
        return false;
      }
      token := token + 1;
      if ended {
        token := token - 1;
        return false;
      }
      return true;
    }

    method LeaveToken()
      requires token > 0
      modifies this`token
      ensures token == old(token) - 1
    {
      token := token - 1;
    }

    method HandleHealth(w: HealthWorld) returns (reply: Reply, ghost t: Readings)
      modifies this
      ensures old(clock) <= t.outer <= t.inner <= t.stored
      ensures token == old(token) && uploads == old(uploads)
      ensures (reply, Cache()) == HealthOutcome(cfg, old(token), old(Cache()), t, w)
      ensures HealthSays(cfg, old(token), old(Cache()), t, w, reply, Cache())
    {
      var hit := LookUp();
      t := Readings(clock, clock, clock);
      if hit.Some? {
        return HealthCached(hit.value), t;
      }
      var entered := EnterToken(w.endedBefore);
      if !entered {
        return HealthCanceled, t;
      }
      hit := LookUp();
      t := t.(inner := clock, stored := clock);
      match (hit, w.probe) {
        case (Some(result), _) =>
          reply := HealthCached(result);   // only when another handler stored meanwhile
        case (None, ProbePanicked) =>
          reply := Aborted;
        case (None, ProbeReturned(result)) =>
          if !w.endedAfter {
            Store(result);
            t := t.(stored := clock);
          }
          reply := HealthProbed(result);
      }
      LeaveToken();
    }

    method HandleSign(w: SignWorld) returns (reply: Reply, signs: nat)
      modifies this`token, this`uploads
      ensures token == old(token) && uploads == old(uploads)
      ensures (reply, signs) == SignOutcome(old(token), old(uploads), w)
      ensures SignSays(old(token), old(uploads), w, reply, signs)
    {
      signs := 0;
      if !w.authorized {
        return SignReply(401), 0;
      }
      if uploads >= MAX_IN_FLIGHT_UPLOADS {
        return SignReply(503), 0;
      }
      uploads := uploads + 1;
      if w.verdict.Refused? {
        reply := SignReply(StatusOf(w.verdict.reason));
      } else {
        var entered := EnterToken(w.ended);
        if !entered {
          reply := SignReply(500);
        } else {
          signs := signs + 1;
          LeaveToken();
          match w.sign
          case SignPanicked =>
            reply := Aborted;
          case SignReturned(ok) =>
            reply := if ok then SignReply(ResponseStatus(w.written)) else SignReply(500);
        }
      }
      uploads := uploads - 1;
    }
  }

  // ---------------------------------------------------------------- the undisturbed runs of the machine

  ghost predicate IsPath(cfg: Config, states: seq<State>, events: seq<Event>) {
    && |states| == |events| + 1
    && forall i :: 0 <= i < |events| ==> Next(cfg, states[i], events[i]) == Some(states[i + 1])
  }

  /** The events can happen one after the other and lead from s0 to s. */
  ghost predicate Leads(cfg: Config, s0: State, events: seq<Event>, s: State) {
    exists states :: IsPath(cfg, states, events) && states[0] == s0 && states[|events|] == s
  }

  lemma Start(cfg: Config, s: State)
    ensures Leads(cfg, s, [], s)
  {
    assert IsPath(cfg, [s], []) && [s][0] == s;
  }

  lemma Advance(cfg: Config, s0: State, es: seq<Event>, s: State, e: Event) returns (es': seq<Event>, s': State)
    requires Leads(cfg, s0, es, s) && Next(cfg, s, e).Some?
    ensures Leads(cfg, s0, es', s') && Next(cfg, s, e) == Some(s')
  {
    var states :| IsPath(cfg, states, es) && states[0] == s0 && states[|es|] == s;
    es', s' := es + [e], Next(cfg, s, e).value;
    var states' := states + [s'];
    assert IsPath(cfg, states', es') && states'[0] == s0 && states'[|es'|] == s';
  }

  /** One step of handleHealth. */
  lemma HealthAt(cfg: Config, s0: State, es: seq<Event>, s: State, h: HandlerId) returns (es': seq<Event>, s': State)
    requires Leads(cfg, s0, es, s) && h in s.handlers && InHealth(s.handlers[h].pc) && StepHealth(cfg, s, h).Some?
    ensures Leads(cfg, s0, es', s') && StepHealth(cfg, s, h) == Some(s')
  {
    es', s' := Advance(cfg, s0, es, s, Step(h));
  }

  /** One step of handleSign. */
  lemma SignAt(cfg: Config, s0: State, es: seq<Event>, s: State, h: HandlerId) returns (es': seq<Event>, s': State)
    requires Leads(cfg, s0, es, s) && h in s.handlers && !InHealth(s.handlers[h].pc) && StepSign(s, h).Some?
    ensures Leads(cfg, s0, es', s') && StepSign(s, h) == Some(s')
  {
    es', s' := Advance(cfg, s0, es, s, Step(h));
  }

  predicate FromOutside(e: Event) {
    !e.Tick? && !e.ArriveHealth? && !e.ArriveSign? && !e.Cancel? && !e.Step?
  }

  /** One event from outside. */
  lemma OutsideAt(cfg: Config, s0: State, es: seq<Event>, s: State, e: Event) returns (es': seq<Event>, s': State)
    requires Leads(cfg, s0, es, s) && FromOutside(e) && e.h in s.handlers && External(cfg, s, e, e.h).Some?
    ensures Leads(cfg, s0, es', s') && External(cfg, s, e, e.h) == Some(s')
  {
    es', s' := Advance(cfg, s0, es, s, e);
  }

  lemma TickAt(cfg: Config, s0: State, es: seq<Event>, s: State, to: int) returns (es': seq<Event>, s': State)
    requires Leads(cfg, s0, es, s) && s.now <= to
    ensures Leads(cfg, s0, es', s') && s' == s.(now := to)
  {
    es', s' := Advance(cfg, s0, es, s, Tick(to));
  }

  lemma CancelAt(cfg: Config, s0: State, es: seq<Event>, s: State, h: HandlerId) returns (es': seq<Event>, s': State)
    requires Leads(cfg, s0, es, s) && h in s.handlers
    ensures Leads(cfg, s0, es', s') && s' == Put(s, h, s.handlers[h].(canceled := true))
  {
    es', s' := Advance(cfg, s0, es, s, Cancel(h));
  }

  /** The state in which handler `h` stands at `pc` and the channels hold what they held in `s`. */
  predicate Standing(s: State, s': State, h: HandlerId, handler: Handler, cache: HealthCache) {
    s'.handlers == s.handlers[h := handler] && s'.cache == cache && s'.token == s.token && s'.uploads == s.uploads
  }

  /** For all readings and every world, a /health handler that runs alone in the machine can do what the method
      is specified to do. */
  lemma SoloHealth(cfg: Config, s: State, h: HandlerId, t: Readings, w: HealthWorld) returns (es: seq<Event>, s': State)
    requires h !in s.handlers && s.now <= t.outer <= t.inner <= t.stored
    ensures Leads(cfg, s, es, s') && h in s'.handlers
    ensures s'.handlers[h].pc == Done(HealthOutcome(cfg, s.token, s.cache, t, w).0)
    ensures Standing(s, s', h, s'.handlers[h], HealthOutcome(cfg, s.token, s.cache, t, w).1)
  {
    Start(cfg, s);
    es, s' := Advance(cfg, s, [], s, ArriveHealth(h));
    es, s' := TickAt(cfg, s, es, s', t.outer);
    es, s' := HealthAt(cfg, s, es, s', h);
    if CachedHealth(cfg, s.cache, t.outer).None? {
      assert s' == s.(now := t.outer, handlers := s.handlers[h := NewHandler(HealthWaits)]);
      if s.token >= TOKEN_SLOTS || w.endedBefore {
        es, s' := CancelAt(cfg, s, es, s', h);
        es, s' := OutsideAt(cfg, s, es, s', GiveUp(h));
      } else {
        es, s' := SoloProbe(cfg, s, es, s', h, t, w);
      }
    }
  }

  lemma SoloProbe(cfg: Config, s0: State, before: seq<Event>, s: State, h: HandlerId, t: Readings, w: HealthWorld)
    returns (es: seq<Event>, s': State)
    requires Leads(cfg, s0, before, s) && s.now <= t.inner <= t.stored && s.token < TOKEN_SLOTS && !w.endedBefore
    requires h in s.handlers && s.handlers[h] == NewHandler(HealthWaits) && CachedHealth(cfg, s.cache, t.outer).None?
    ensures Leads(cfg, s0, es, s') && h in s'.handlers
    ensures s'.handlers[h].pc == Done(HealthOutcome(cfg, s.token, s.cache, t, w).0)
    ensures Standing(s, s', h, s'.handlers[h], HealthOutcome(cfg, s.token, s.cache, t, w).1)
  {
    es, s' := SoloRecheck(cfg, s0, before, s, h, t.inner);
    if CachedHealth(cfg, s.cache, t.inner).None? {
      es, s' := SoloBackend(cfg, s0, es, s', h, t.stored, w);
    }
    es, s' := SoloLeave(cfg, s0, es, s', h);
  }

  /** The token, and the second look at the cache. */
  lemma SoloRecheck(cfg: Config, s0: State, before: seq<Event>, s: State, h: HandlerId, inner: int)
    returns (es: seq<Event>, s': State)
    requires Leads(cfg, s0, before, s) && s.now <= inner && s.token < TOKEN_SLOTS
    requires h in s.handlers && s.handlers[h] == NewHandler(HealthWaits)
    ensures Leads(cfg, s0, es, s')
    ensures var hit := CachedHealth(cfg, s.cache, inner);
            s' == s.(now := inner, token := s.token + 1,
                     handlers := s.handlers[h := NewHandler(if hit.Some? then HealthLeaves(HealthCached(hit.value))
                                                            else ProbeReady)])
  {
    es, s' := SoloEnter(cfg, s0, before, s, h);
    es, s' := TickAt(cfg, s0, es, s', inner);
    es, s' := HealthAt(cfg, s0, es, s', h);
  }

  lemma SoloLeave(cfg: Config, s0: State, before: seq<Event>, s: State, h: HandlerId)
    returns (es: seq<Event>, s': State)
    requires Leads(cfg, s0, before, s) && s.token > 0 && h in s.handlers && s.handlers[h].pc.HealthLeaves?
    ensures Leads(cfg, s0, es, s')
    ensures s' == Move(s.(token := s.token - 1), h, Done(s.handlers[h].pc.reply))
  {
    es, s' := HealthAt(cfg, s0, before, s, h);
  }

  lemma SoloEnter(cfg: Config, s0: State, before: seq<Event>, s: State, h: HandlerId)
    returns (es: seq<Event>, s': State)
    requires Leads(cfg, s0, before, s) && s.token < TOKEN_SLOTS
    requires h in s.handlers && s.handlers[h] == NewHandler(HealthWaits)
    ensures Leads(cfg, s0, es, s')
    ensures s' == s.(token := s.token + 1, handlers := s.handlers[h := NewHandler(Rechecking)])
  {
    es, s' := HealthAt(cfg, s0, before, s, h);
    es, s' := HealthAt(cfg, s0, es, s', h);
  }

  lemma SoloBackend(cfg: Config, s0: State, before: seq<Event>, s: State, h: HandlerId, stored: int, w: HealthWorld)
    returns (es: seq<Event>, s': State)
    requires Leads(cfg, s0, before, s) && s.now <= stored
    requires h in s.handlers && s.handlers[h] == NewHandler(ProbeReady)
    ensures Leads(cfg, s0, es, s') && h in s'.handlers
    ensures s'.handlers[h].pc == HealthLeaves(match w.probe
                                              case ProbePanicked => Aborted
                                              case ProbeReturned(result) => HealthProbed(result))
    ensures Standing(s, s', h, s'.handlers[h], if w.probe.ProbePanicked? || w.endedAfter then s.cache
                                               else StoreHealth(cfg, s.cache, w.probe.result, stored))
  {
    es, s' := HealthAt(cfg, s0, before, s, h);
    match w.probe
    case ProbePanicked =>
      es, s' := OutsideAt(cfg, s0, es, s', BackendPanics(h));
    case ProbeReturned(result) =>
      es, s' := OutsideAt(cfg, s0, es, s', HealthReturns(h, result));
      assert s' == s.(handlers := s.handlers[h := NewHandler(Probed(result))]);
      es, s' := SoloResult(cfg, s0, es, s', h, result, stored, w.endedAfter);
  }

  /** The test of the context, and the store. */
  lemma SoloResult(cfg: Config, s0: State, before: seq<Event>, s: State, h: HandlerId, result: Health, stored: int,
                   ended: bool)
    returns (es: seq<Event>, s': State)
    requires Leads(cfg, s0, before, s) && s.now <= stored
    requires h in s.handlers && s.handlers[h] == NewHandler(Probed(result))
    ensures Leads(cfg, s0, es, s') && h in s'.handlers
    ensures s'.handlers[h].pc == HealthLeaves(HealthProbed(result))
    ensures Standing(s, s', h, s'.handlers[h], if ended then s.cache else StoreHealth(cfg, s.cache, result, stored))
  {
    if ended {
      es, s' := CancelAt(cfg, s0, before, s, h);
      es, s' := HealthAt(cfg, s0, es, s', h);
    } else {
      es, s' := HealthAt(cfg, s0, before, s, h);
      es, s' := TickAt(cfg, s0, es, s', stored);
      es, s' := HealthAt(cfg, s0, es, s', h);
    }
  }

  /** For every world, a /v1/sign handler that runs alone in the machine can do what the method is specified to do. */
  lemma SoloSign(cfg: Config, s: State, h: HandlerId, w: SignWorld) returns (es: seq<Event>, s': State)
    requires h !in s.handlers
    ensures Leads(cfg, s, es, s') && h in s'.handlers
    ensures s'.handlers[h].pc == Done(SignOutcome(s.token, s.uploads, w).0)
    ensures s'.handlers[h].signs == SignOutcome(s.token, s.uploads, w).1
    ensures Standing(s, s', h, s'.handlers[h], s.cache)
  {
    Start(cfg, s);
    es, s' := Advance(cfg, s, [], s, ArriveSign(h));
    es, s' := OutsideAt(cfg, s, es, s', Authenticated(h, w.authorized));
    if w.authorized {
      es, s' := SignAt(cfg, s, es, s', h);
      if s.uploads < MAX_IN_FLIGHT_UPLOADS {
        assert s' == s.(uploads := s.uploads + 1, handlers := s.handlers[h := NewHandler(Receiving)]);
        es, s' := SoloUpload(cfg, s, es, s', h, w);
      }
    }
  }

  lemma SoloUpload(cfg: Config, s0: State, before: seq<Event>, s: State, h: HandlerId, w: SignWorld)
    returns (es: seq<Event>, s': State)
    requires Leads(cfg, s0, before, s) && h in s.handlers && s.handlers[h] == NewHandler(Receiving)
    requires w.authorized && s.uploads > 0
    ensures Leads(cfg, s0, es, s') && h in s'.handlers
    ensures s'.handlers[h].pc == Done(SignOutcome(s.token, 0, w).0)
    ensures s'.handlers[h].signs == SignOutcome(s.token, 0, w).1
    ensures Standing(s.(uploads := s.uploads - 1), s', h, s'.handlers[h], s.cache)
  {
    var e := if w.verdict == Refused(TooLarge) then Received(h, cfg.maxBody + 1) else UploadEnds(h, w.verdict);
    es, s' := OutsideAt(cfg, s0, before, s, e);
    if w.verdict.Accepted? {
      assert s' == s.(handlers := s.handlers[h := NewHandler(SignWaits)]);
      es, s' := SoloToken(cfg, s0, es, s', h, w);
    }
    es, s' := SoloCleanup(cfg, s0, es, s', h);
  }

  lemma SoloCleanup(cfg: Config, s0: State, before: seq<Event>, s: State, h: HandlerId)
    returns (es: seq<Event>, s': State)
    requires Leads(cfg, s0, before, s) && h in s.handlers && s.handlers[h].pc.Cleaning? && s.uploads > 0
    ensures Leads(cfg, s0, es, s') && h in s'.handlers
    ensures s'.handlers == s.handlers[h := s.handlers[h].(pc := Done(s.handlers[h].pc.reply), bytes := 0)]
    ensures s'.cache == s.cache && s'.token == s.token && s'.uploads == s.uploads - 1
  {
    es, s' := SignAt(cfg, s0, before, s, h);
    es, s' := SignAt(cfg, s0, es, s', h);
  }

  lemma SoloToken(cfg: Config, s0: State, before: seq<Event>, s: State, h: HandlerId, w: SignWorld)
    returns (es: seq<Event>, s': State)
    requires Leads(cfg, s0, before, s) && h in s.handlers && s.handlers[h] == NewHandler(SignWaits)
    requires w.authorized && w.verdict.Accepted?
    ensures Leads(cfg, s0, es, s') && h in s'.handlers
    ensures s'.handlers[h].pc == Cleaning(SignOutcome(s.token, 0, w).0)
    ensures s'.handlers[h].signs == SignOutcome(s.token, 0, w).1
    ensures Standing(s, s', h, s'.handlers[h], s.cache)
  {
    if s.token >= TOKEN_SLOTS || w.ended {
      es, s' := CancelAt(cfg, s0, before, s, h);
      es, s' := OutsideAt(cfg, s0, es, s', GiveUp(h));
    } else {
      es, s' := SoloSigning(cfg, s0, before, s, h);
      es, s' := SoloSigned(cfg, s0, es, s', h, w);
    }
  }

  lemma SoloSigned(cfg: Config, s0: State, before: seq<Event>, s: State, h: HandlerId, w: SignWorld)
    returns (es: seq<Event>, s': State)
    requires Leads(cfg, s0, before, s) && h in s.handlers && s.handlers[h].pc == Signing && s.token > 0
    ensures Leads(cfg, s0, es, s')
    ensures s' == Move(s.(token := s.token - 1), h, Cleaning(
                         match w.sign
                         case SignPanicked => Aborted
                         case SignReturned(ok) => SignReply(if ok then ResponseStatus(w.written) else 500)))
  {
    match w.sign
    case SignPanicked =>
      es, s' := OutsideAt(cfg, s0, before, s, BackendPanics(h));
      es, s' := SignAt(cfg, s0, es, s', h);
    case SignReturned(ok) =>
      es, s' := SoloReturned(cfg, s0, before, s, h, ok);
      if ok {
        es, s' := OutsideAt(cfg, s0, es, s', ResponseEnds(h, ResponseStatus(w.written)));
      }
  }

  /** The return of Signer.Sign, and the release of the token. */
  lemma SoloReturned(cfg: Config, s0: State, before: seq<Event>, s: State, h: HandlerId, ok: bool)
    returns (es: seq<Event>, s': State)
    requires Leads(cfg, s0, before, s) && h in s.handlers && s.handlers[h].pc == Signing && s.token > 0
    ensures Leads(cfg, s0, es, s')
    ensures s' == Move(s.(token := s.token - 1), h, if ok then Responding else Cleaning(SignReply(500)))
  {
    es, s' := OutsideAt(cfg, s0, before, s, SignReturns(h, ok));
    es, s' := SignAt(cfg, s0, es, s', h);
  }

  lemma SoloSigning(cfg: Config, s0: State, before: seq<Event>, s: State, h: HandlerId)
    returns (es: seq<Event>, s': State)
    requires Leads(cfg, s0, before, s) && h in s.handlers && s.handlers[h] == NewHandler(SignWaits)
    requires s.token < TOKEN_SLOTS
    ensures Leads(cfg, s0, es, s')
    ensures s' == s.(token := s.token + 1, handlers := s.handlers[h := NewHandler(Signing).(signs := 1)])
  {
    es, s' := SignAt(cfg, s0, before, s, h);
    es, s' := SignAt(cfg, s0, es, s', h);
    es, s' := SignAt(cfg, s0, es, s', h);
  }
}
