/** What decides the reply of a handler, over every run and in plain terms. A story says what a handler has met so
    far; `SignSeen` and `HealthSeen` tie each part of it to an event of the run and to the state before it, and
    `SignOwes` and `HealthOwes` say what the code must reply to the whole of it. They speak of events, cache fields,
    contexts and slots only, and not of the functions with which the transition system computes replies. */
module HandlerAnswers {
  import opened Common
  import opened TokenProtocol
  import opened TokenInvariant
  import opened TokenTheorems

  /** Before n, event j was `e`. */
  predicate Came(events: seq<Event>, n: nat, j: nat, e: Event) {
    j < n <= |events| && events[j] == e
  }

  /** The context of the handler had ended. */
  predicate EndedIn(s: State, h: HandlerId) {
    h in s.handlers && s.handlers[h].canceled
  }

  /** How the wait for the token and the test after it came out: the handler gave up, or it tested its context. */
  ghost predicate Tested(states: seq<State>, events: seq<Event>, n: nat, h: HandlerId, j: nat, ended: bool) {
    && j < |states| && ended == EndedIn(states[j], h)
    && (Came(events, n, j, Step(h)) || (ended && Came(events, n, j, GiveUp(h))))
  }

  // ---------------------------------------------------------------- /v1/sign

  datatype BackendEnd = Returned(ok: bool) | Panicked

  /** What a /v1/sign handler has met: whether it was let in, how many other requests held upload slots, what became
      of its upload, whether its context had ended, how the backend ended, and with which status the response. */
  datatype SignStory = SignStory(letIn: Option<bool>, others: Option<nat>, verdict: Option<Verdict>,
                                 ended: Option<bool>, backend: Option<BackendEnd>, status: Option<int>)

  /** Where in the run it met that. */
  datatype SignTrail = SignTrail(auth: nat, slot: nat, upload: nat, test: nat, sign: nat, sent: nat)

  /** The upload ended with this verdict, or one more piece of the body made it longer than MaxBody. */
  ghost predicate UploadEnded(cfg: Config, states: seq<State>, events: seq<Event>, n: nat, h: HandlerId, j: nat,
                              verdict: Verdict) {
    if verdict == Refused(TooLarge) then
      && j < n <= |events| && j < |states| && events[j].Received? && events[j].h == h && h in states[j].handlers
      && states[j].handlers[h].bytes + events[j].n > cfg.maxBody
    else Came(events, n, j, UploadEnds(h, verdict))
  }

  /** So many requests hold upload slots, and `h` is not among them. */
  ghost predicate OthersHold(s: State, h: HandlerId, others: nat) {
    h !in Slots(s) && |Slots(s)| == others
  }

  /** Every part of the story happened, in this order. */
  ghost predicate SignSeen(cfg: Config, states: seq<State>, events: seq<Event>, n: nat, h: HandlerId, y: SignStory,
                           w: SignTrail) {
    && (y.letIn.Some? ==> Came(events, n, w.auth, Authenticated(h, y.letIn.value)))
    && (y.others.Some? ==>
          w.auth < w.slot < |states| && Came(events, n, w.slot, Step(h))
          && OthersHold(states[w.slot], h, y.others.value))
    && (y.verdict.Some? ==> w.slot < w.upload && UploadEnded(cfg, states, events, n, h, w.upload, y.verdict.value))
    && (y.ended.Some? ==> w.upload < w.test && Tested(states, events, n, h, w.test, y.ended.value))
    && (y.backend.Some? ==>
          w.test < w.sign
          && Came(events, n, w.sign, match y.backend.value
                                     case Returned(ok) => SignReturns(h, ok)
                                     case Panicked => BackendPanics(h)))
    && (y.status.Some? ==> w.sign < w.sent && Came(events, n, w.sent, ResponseEnds(h, y.status.value)))
  }

  /** What the code must reply, and how often it must have signed. */
  predicate SignOwes(y: SignStory, reply: Reply, signs: nat) {
    if y.letIn != Some(true) then y.letIn == Some(false) && reply == SignReply(401) && signs == 0
    else if y.others == Some(2) then reply == SignReply(503) && signs == 0
    else if y.others !in {Some(0), Some(1)} then false
    else if y.verdict == Some(Refused(NotSignable)) then reply == SignReply(415) && signs == 0
    else if y.verdict == Some(Refused(TooLarge)) then reply == SignReply(413) && signs == 0
    else if y.verdict == Some(Refused(BadMetadata)) then reply == SignReply(400) && signs == 0
    else if y.verdict == Some(Refused(Internal)) then reply == SignReply(500) && signs == 0
    else if y.verdict != Some(Accepted) then false
    else if y.ended == Some(true) then reply == SignReply(500) && signs == 0
    else if y.ended != Some(false) then false
    else if y.backend == Some(Panicked) then reply == Aborted && signs == 1
    else if y.backend == Some(Returned(false)) then reply == SignReply(500) && signs == 1
    else y.backend == Some(Returned(true)) && y.status in {Some(200), Some(500)}
         && reply == SignReply(y.status.value) && signs == 1
  }

  /** The story of a handler at pc. */
  predicate SignTold(pc: Pc, signs: nat, y: SignStory) {
    var in_ := y.letIn == Some(true);
    var slot := in_ && y.others in {Some(0), Some(1)};
    var accepted := slot && y.verdict == Some(Accepted);
    var ready := accepted && y.ended == Some(false);
    match pc
    case Authenticating => signs == 0
    case TakingSlot => signs == 0 && in_
    case Receiving => signs == 0 && slot
    case SignWaits => signs == 0 && accepted
    case SignEntered => signs == 0 && accepted
    case SignReady => signs == 0 && ready
    case Signing => signs == 1 && ready
    case SignLeaves(signed, reply) =>
      if signed then signs == 1 && ready && y.backend == Some(Returned(true)) else SignOwes(y, reply, signs)
    case Responding => signs == 1 && ready && y.backend == Some(Returned(true))
    case Cleaning(reply) => SignOwes(y, reply, signs)
    case LeavingSlot(reply) => SignOwes(y, reply, signs)
    case Done(reply) => SignOwes(y, reply, signs)
    case _ => false
  }

  /** The story after event e, at pc in state s. */
  ghost function SignNext(cfg: Config, y: SignStory, s: State, h: HandlerId, e: Event): SignStory
    requires h in s.handlers
  {
    var pc := s.handlers[h].pc;
    match e
    case Authenticated(_, ok) => y.(letIn := Some(ok))
    case Received(_, n) =>
      if s.handlers[h].bytes + n > cfg.maxBody then y.(verdict := Some(Refused(TooLarge))) else y
    case UploadEnds(_, verdict) => y.(verdict := Some(verdict))
    case GiveUp(_) => y.(ended := Some(true))
    case SignReturns(_, ok) => y.(backend := Some(Returned(ok)))
    case BackendPanics(_) => y.(backend := Some(Panicked))
    case ResponseEnds(_, status) => y.(status := Some(status))
    case Step(_) =>
      if pc.TakingSlot? then y.(others := Some(|Slots(s)|))
      else if pc.SignEntered? then y.(ended := Some(s.handlers[h].canceled))
      else y
    case _ => y
  }

  function TrailNext(w: SignTrail, n: nat, pc: Pc): SignTrail {
    if pc.Authenticating? then w.(auth := n)
    else if pc.TakingSlot? then w.(slot := n)
    else if pc.Receiving? then w.(upload := n)
    else if pc.SignWaits? || pc.SignEntered? then w.(test := n)
    else if pc.Signing? then w.(sign := n)
    else if pc.Responding? then w.(sent := n)
    else w
  }

  /** The event is one of the handler's own, in the machine's sense. */
  predicate Touches(e: Event, h: HandlerId) {
    !e.Tick? && !e.Cancel? && !e.ArriveHealth? && !e.ArriveSign? && e.h == h
  }

  lemma SlotTold(cfg: Config, s: State, h: HandlerId, s': State, y: SignStory)
    requires h in s.handlers && StepSign(s, h) == Some(s') && h in s'.handlers && Channels(s)
    requires s.handlers[h].pc.TakingSlot? && SignTold(s.handlers[h].pc, s.handlers[h].signs, y)
    ensures SignTold(s'.handlers[h].pc, s'.handlers[h].signs, SignNext(cfg, y, s, h, Step(h)))
  {
  }

  lemma TokenTold(cfg: Config, s: State, h: HandlerId, s': State, y: SignStory)
    requires h in s.handlers && StepSign(s, h) == Some(s') && h in s'.handlers
    requires var pc := s.handlers[h].pc; pc.SignWaits? || pc.SignEntered? || pc.SignReady?
    requires SignTold(s.handlers[h].pc, s.handlers[h].signs, y)
    ensures SignTold(s'.handlers[h].pc, s'.handlers[h].signs, SignNext(cfg, y, s, h, Step(h)))
  {
  }

  lemma LeavingTold(cfg: Config, s: State, h: HandlerId, s': State, y: SignStory)
    requires h in s.handlers && StepSign(s, h) == Some(s') && h in s'.handlers
    requires var pc := s.handlers[h].pc; pc.SignLeaves? || pc.Cleaning? || pc.LeavingSlot?
    requires SignTold(s.handlers[h].pc, s.handlers[h].signs, y)
    ensures SignTold(s'.handlers[h].pc, s'.handlers[h].signs, SignNext(cfg, y, s, h, Step(h)))
  {
  }

  lemma SignStepTold(cfg: Config, s: State, h: HandlerId, s': State, y: SignStory)
    requires h in s.handlers && StepSign(s, h) == Some(s') && h in s'.handlers && Channels(s)
    requires SignTold(s.handlers[h].pc, s.handlers[h].signs, y)
    ensures SignTold(s'.handlers[h].pc, s'.handlers[h].signs, SignNext(cfg, y, s, h, Step(h)))
  {
    var pc := s.handlers[h].pc;
    if pc.TakingSlot? {
      SlotTold(cfg, s, h, s', y);
    } else if pc.SignWaits? || pc.SignEntered? || pc.SignReady? {
      TokenTold(cfg, s, h, s', y);
    } else {
      LeavingTold(cfg, s, h, s', y);
    }
  }

  lemma SignEventTold(cfg: Config, s: State, e: Event, h: HandlerId, s': State, y: SignStory)
    requires h in s.handlers && External(cfg, s, e, h) == Some(s') && h in s'.handlers && Touches(e, h)
    requires SignTold(s.handlers[h].pc, s.handlers[h].signs, y)
    ensures SignTold(s'.handlers[h].pc, s'.handlers[h].signs, SignNext(cfg, y, s, h, e))
  {
  }

  /** At pc, what is still to come is missing from the story. */
  predicate SignPending(pc: Pc, y: SignStory) {
    && (pc.Authenticating? ==> y.letIn.None?)
    && (pc.Authenticating? || pc.TakingSlot? ==> y.others.None?)
    && (pc.Authenticating? || pc.TakingSlot? || pc.Receiving? ==> y.verdict.None?)
    && (BeforeSign(pc) && !pc.SignReady? ==> y.ended.None?)
    && (BeforeSign(pc) || pc.Signing? ==> y.backend.None?)
    && (BeforeSign(pc) || pc.Signing? || pc.Responding? || (pc.SignLeaves? && pc.signed) ==> y.status.None?)
  }

  lemma SignStepPending(cfg: Config, s: State, h: HandlerId, s': State, y: SignStory)
    requires h in s.handlers && StepSign(s, h) == Some(s') && h in s'.handlers && SignPending(s.handlers[h].pc, y)
    ensures SignPending(s'.handlers[h].pc, SignNext(cfg, y, s, h, Step(h)))
  {
  }

  lemma SignEventPending(cfg: Config, s: State, e: Event, h: HandlerId, s': State, y: SignStory)
    requires h in s.handlers && External(cfg, s, e, h) == Some(s') && h in s'.handlers && Touches(e, h)
    requires SignPending(s.handlers[h].pc, y)
    ensures SignPending(s'.handlers[h].pc, SignNext(cfg, y, s, h, e))
  {
  }

  lemma SignStays(cfg: Config, states: seq<State>, events: seq<Event>, n: nat, h: HandlerId, y: SignStory, w: SignTrail)
    requires n < |events| && SignSeen(cfg, states, events, n, h, y, w)
    ensures SignSeen(cfg, states, events, n + 1, h, y, w)
  {
  }

  /** Event n is one of a handler with this story. */
  ghost predicate SignMeets(cfg: Config, states: seq<State>, events: seq<Event>, n: nat, h: HandlerId, y: SignStory,
                            w: SignTrail) {
    && n < |states| && n < |events| && h in states[n].handlers && Touches(events[n], h)
    && Fits(cfg, states[n], events[n], h) && SignSeen(cfg, states, events, n, h, y, w)
    && SignTold(states[n].handlers[h].pc, states[n].handlers[h].signs, y) && SignPending(states[n].handlers[h].pc, y)
  }

  lemma SeesUpload(cfg: Config, states: seq<State>, events: seq<Event>, n: nat, h: HandlerId, y: SignStory,
                   w: SignTrail)
    requires SignMeets(cfg, states, events, n, h, y, w)
    requires var pc := states[n].handlers[h].pc; pc.Authenticating? || pc.TakingSlot? || pc.Receiving?
    ensures SignSeen(cfg, states, events, n + 1, h, SignNext(cfg, y, states[n], h, events[n]),
                     TrailNext(w, n, states[n].handlers[h].pc))
  {
    SignStays(cfg, states, events, n, h, y, w);
  }

  lemma SeesToken(cfg: Config, states: seq<State>, events: seq<Event>, n: nat, h: HandlerId, y: SignStory, w: SignTrail)
    requires SignMeets(cfg, states, events, n, h, y, w)
    requires states[n].handlers[h].pc.SignWaits? || states[n].handlers[h].pc.SignEntered?
    ensures SignSeen(cfg, states, events, n + 1, h, SignNext(cfg, y, states[n], h, events[n]),
                     TrailNext(w, n, states[n].handlers[h].pc))
  {
    SignStays(cfg, states, events, n, h, y, w);
  }

  lemma SeesBackend(cfg: Config, states: seq<State>, events: seq<Event>, n: nat, h: HandlerId, y: SignStory,
                    w: SignTrail)
    requires SignMeets(cfg, states, events, n, h, y, w)
    requires states[n].handlers[h].pc.Signing? || states[n].handlers[h].pc.Responding?
    ensures SignSeen(cfg, states, events, n + 1, h, SignNext(cfg, y, states[n], h, events[n]),
                     TrailNext(w, n, states[n].handlers[h].pc))
  {
    SignStays(cfg, states, events, n, h, y, w);
  }

  /** What the handler meets at event n is seen there. */
  lemma SignSees(cfg: Config, states: seq<State>, events: seq<Event>, n: nat, h: HandlerId, y: SignStory, w: SignTrail)
    requires SignMeets(cfg, states, events, n, h, y, w)
    ensures SignSeen(cfg, states, events, n + 1, h, SignNext(cfg, y, states[n], h, events[n]),
                     TrailNext(w, n, states[n].handlers[h].pc))
  {
    var pc := states[n].handlers[h].pc;
    if pc.Authenticating? || pc.TakingSlot? || pc.Receiving? {
      SeesUpload(cfg, states, events, n, h, y, w);
    } else if pc.SignWaits? || pc.SignEntered? {
      SeesToken(cfg, states, events, n, h, y, w);
    } else if pc.Signing? || pc.Responding? {
      SeesBackend(cfg, states, events, n, h, y, w);
    } else {
      SignStays(cfg, states, events, n, h, y, w);
    }
  }

  /** Where in a handler of /v1/sign an event can happen, as far as the story goes. */
  ghost predicate Fits(cfg: Config, s: State, e: Event, h: HandlerId)
    requires h in s.handlers
  {
    var pc := s.handlers[h].pc;
    match e
    case Authenticated(_, _) => pc.Authenticating?
    case Received(_, _) => pc.Receiving?
    case UploadEnds(_, verdict) => pc.Receiving? && verdict != Refused(TooLarge)
    case GiveUp(_) => pc.SignWaits? && s.handlers[h].canceled
    case SignReturns(_, _) => pc.Signing?
    case BackendPanics(_) => pc.Signing?
    case ResponseEnds(_, _) => pc.Responding?
    case Step(_) => !InHealth(pc) && !pc.Authenticating? && !pc.Receiving? && !pc.Signing? && !pc.Responding?
                    && (pc.TakingSlot? ==> h !in Slots(s))
    case _ => false
  }

  lemma EventsFit(cfg: Config, s: State, e: Event, h: HandlerId, s': State)
    requires h in s.handlers && !InHealth(s.handlers[h].pc) && Touches(e, h)
    requires if e.Step? then StepSign(s, h) == Some(s') else External(cfg, s, e, h) == Some(s')
    ensures Fits(cfg, s, e, h)
  {
  }

  lemma OwnHandler(cfg: Config, s: State, e: Event, s': State, h: HandlerId)
    requires Next(cfg, s, e) == Some(s') && h in s.handlers && Touches(e, h)
    ensures h in s'.handlers
    ensures if !e.Step? then External(cfg, s, e, h) == Some(s')
            else if InHealth(s.handlers[h].pc) then StepHealth(cfg, s, h) == Some(s') else StepSign(s, h) == Some(s')
  {
    if e.Step? {
      if InHealth(s.handlers[h].pc) {
        HealthTouchesOne(cfg, s, h, s');
      } else {
        SignTouchesOne(s, h, s');
      }
    } else {
      ExternalTouchesOne(cfg, s, e, h, s');
    }
  }

  lemma SamePlace(cfg: Config, s: State, e: Event, s': State, h: HandlerId)
    requires Next(cfg, s, e) == Some(s') && h in s.handlers && !Touches(e, h)
    ensures h in s'.handlers && s'.handlers[h].pc == s.handlers[h].pc && s'.handlers[h].signs == s.handlers[h].signs
  {
    if e.Tick? || e.h != h {
      OthersUntouched(cfg, s, e, s', h);
    }
  }

  /** The story fits where the handler stands. */
  predicate SignFits(s: State, h: HandlerId, y: SignStory) {
    && h in s.handlers && !InHealth(s.handlers[h].pc)
    && SignTold(s.handlers[h].pc, s.handlers[h].signs, y) && SignPending(s.handlers[h].pc, y)
  }

  lemma SignFitsNext(cfg: Config, s: State, e: Event, s': State, h: HandlerId, y: SignStory)
    requires Next(cfg, s, e) == Some(s') && SignFits(s, h, y) && Channels(s) && Touches(e, h)
    ensures Fits(cfg, s, e, h) && SignFits(s', h, SignNext(cfg, y, s, h, e))
  {
    OwnHandler(cfg, s, e, s', h);
    EventsFit(cfg, s, e, h, s');
    if e.Step? {
      SignStepTold(cfg, s, h, s', y);
      SignStepPending(cfg, s, h, s', y);
    } else {
      SignEventTold(cfg, s, e, h, s', y);
      SignEventPending(cfg, s, e, h, s', y);
    }
  }

  lemma SignStoryStep(cfg: Config, states: seq<State>, events: seq<Event>, n: nat, h: HandlerId, y: SignStory,
                      w: SignTrail)
    returns (y': SignStory, w': SignTrail)
    requires IsRun(cfg, states, events) && n + 1 < |states| && SignFits(states[n], h, y)
    requires SignSeen(cfg, states, events, n, h, y, w)
    ensures SignFits(states[n + 1], h, y') && SignSeen(cfg, states, events, n + 1, h, y', w')
  {
    var s, e, s' := states[n], events[n], states[n + 1];
    assert Next(cfg, s, e) == Some(s');
    if Touches(e, h) {
      RunInv(cfg, states, events, n);
      y', w' := SignNext(cfg, y, s, h, e), TrailNext(w, n, s.handlers[h].pc);
      SignFitsNext(cfg, s, e, s', h, y);
      SignSees(cfg, states, events, n, h, y, w);
    } else {
      y', w' := y, w;
      SamePlace(cfg, s, e, s', h);
      SignStays(cfg, states, events, n, h, y, w);
    }
  }

  predicate ArrivedToSign(s: State, h: HandlerId) {
    h in s.handlers && s.handlers[h] == NewHandler(Authenticating)
  }

  lemma {:induction false} SignStoryOf(cfg: Config, states: seq<State>, events: seq<Event>, i: nat, n: nat,
                                       h: HandlerId)
    returns (y: SignStory, w: SignTrail)
    requires IsRun(cfg, states, events) && i <= n < |states| && ArrivedToSign(states[i], h)
    ensures SignFits(states[n], h, y) && SignSeen(cfg, states, events, n, h, y, w)
  {
    if i == n {
      y, w := SignStory(None, None, None, None, None, None), SignTrail(0, 0, 0, 0, 0, 0);
    } else {
      y, w := SignStoryOf(cfg, states, events, i, n - 1, h);
      y, w := SignStoryStep(cfg, states, events, n - 1, h, y, w);
    }
  }

  /** In every interleaving, the reply to a /v1/sign request, and how often it was signed, are what the code owes to
      what the request has met, in this order: 401 for a caller that was not let in; 503, before any upload, when two
      other requests held upload slots; 415, 413, 400 or 500 for a refused upload; 500 when the context had ended at
      the wait for the token or at the test after it, or when the backend or the response failed; 200 when the backend
      signed, once, with a live context at that test, and the response was sent. */
  lemma SignReplyIsDecided(cfg: Config, states: seq<State>, events: seq<Event>, i: nat, n: nat, h: HandlerId)
    returns (y: SignStory, w: SignTrail)
    requires IsRun(cfg, states, events) && i <= n < |states| && ArrivedToSign(states[i], h)
    requires h in states[n].handlers && states[n].handlers[h].pc.Done?
    ensures SignSeen(cfg, states, events, n, h, y, w)
    ensures SignOwes(y, states[n].handlers[h].pc.reply, states[n].handlers[h].signs)
  {
    y, w := SignStoryOf(cfg, states, events, i, n, h);
  }

  /** A request for an upload slot gets one unless two requests hold one, and is then turned away. */
  lemma TwoUploadsAtATime(cfg: Config, states: seq<State>, events: seq<Event>, n: nat, h: HandlerId)
    requires IsRun(cfg, states, events) && n + 1 < |states| && events[n] == Step(h)
    requires h in states[n].handlers && states[n].handlers[h].pc.TakingSlot?
    ensures h in states[n + 1].handlers && |Slots(states[n])| <= 2
    ensures states[n + 1].handlers[h].pc == if |Slots(states[n])| == 2 then Done(SignReply(503)) else Receiving
  {
    RunInv(cfg, states, events, n);
    assert Next(cfg, states[n], events[n]) == Some(states[n + 1]);
  }

  // ---------------------------------------------------------------- /health

  datatype ProbeEnd = Answered(result: Health) | Broke

  /** What a /health handler has met: the live result, if any, at its first look; whether its context had ended; the
      live result, if any, at its second look; how its probe ended; whether its context had ended after that; and
      the time of the store. */
  datatype HealthStory = HealthStory(first: Option<Option<Health>>, ended: Option<bool>, second: Option<Option<Health>>,
                                     probe: Option<ProbeEnd>, late: Option<bool>, stored: Option<int>)

  datatype HealthTrail = HealthTrail(look: nat, test: nat, recheck: nat, probe: nat, keep: nat, store: nat)

  /** The stored result, if the cache is on and it is younger than its TTL. */
  function LiveIn(cfg: Config, s: State): Option<Health> {
    if cfg.healthCacheTTL >= 0 && s.cache.healthAt.Some? && s.now < s.cache.healthAt.value + cfg.healthCacheTTL
    then Some(s.cache.healthErr) else None
  }

  ghost predicate HealthSeen(cfg: Config, states: seq<State>, events: seq<Event>, n: nat, h: HandlerId, y: HealthStory,
                             w: HealthTrail) {
    && (y.first.Some? ==>
          w.look < |states| && Came(events, n, w.look, Step(h)) && y.first.value == LiveIn(cfg, states[w.look]))
    && (y.ended.Some? ==> w.look < w.test && Tested(states, events, n, h, w.test, y.ended.value))
    && (y.second.Some? ==>
          w.test < w.recheck < |states| && Came(events, n, w.recheck, Step(h))
          && y.second.value == LiveIn(cfg, states[w.recheck]))
    && (y.probe.Some? ==>
          w.recheck < w.probe
          && Came(events, n, w.probe, match y.probe.value
                                      case Answered(result) => HealthReturns(h, result)
                                      case Broke => BackendPanics(h)))
    && (y.late.Some? ==>
          w.probe < w.keep < |states| && Came(events, n, w.keep, Step(h)) && y.late.value == EndedIn(states[w.keep], h))
    && (y.stored.Some? ==>
          w.keep < w.store && w.store + 1 < |states| && Came(events, n, w.store, Step(h))
          && y.stored.value == states[w.store].now && y.probe.Some? && y.probe.value.Answered?
          && states[w.store + 1].cache
             == if cfg.healthCacheTTL < 0 then states[w.store].cache
                else HealthCache(Some(states[w.store].now), y.probe.value.result))
  }

  /** What the code must reply; a good probe must have been stored unless its context had ended when tested. */
  predicate HealthOwes(y: HealthStory, reply: Reply) {
    if y.first.None? then false
    else if y.first.value.Some? then reply == HealthCached(y.first.value.value)
    else if y.ended == Some(true) then reply == HealthCanceled
    else if y.ended.None? || y.second.None? then false
    else if y.second.value.Some? then reply == HealthCached(y.second.value.value)
    else if y.probe.None? then false
    else if y.probe.value.Broke? then reply == Aborted
    else
      reply == HealthProbed(y.probe.value.result)
      && (y.late == Some(true) || (y.late == Some(false) && y.stored.Some?))
  }

  predicate HealthTold(pc: Pc, y: HealthStory) {
    var missed := y.first == Some(None);
    var entered := missed && y.ended == Some(false);
    var probing := entered && y.second == Some(None);
    match pc
    case CheckingCache => true
    case HealthWaits => missed
    case HealthEntered => missed
    case Rechecking => entered
    case ProbeReady => probing
    case Probing => probing
    case Probed(result) => probing && y.probe == Some(Answered(result))
    case Storing(result) => probing && y.probe == Some(Answered(result)) && y.late == Some(false)
    case HealthLeaves(reply) => HealthOwes(y, reply)
    case Done(reply) => HealthOwes(y, reply)
    case _ => false
  }

  predicate HealthPending(pc: Pc, y: HealthStory) {
    && (pc.CheckingCache? ==> y.first.None?)
    && (pc.CheckingCache? || pc.HealthWaits? || pc.HealthEntered? ==> y.ended.None?)
    && (pc.CheckingCache? || pc.HealthWaits? || pc.HealthEntered? || pc.Rechecking? ==> y.second.None?)
    && (InHealth(pc) && !pc.Probed? && !pc.Storing? && !pc.HealthLeaves? ==> y.probe.None?)
    && (InHealth(pc) && !pc.Storing? && !pc.HealthLeaves? ==> y.late.None?)
    && (InHealth(pc) && !pc.HealthLeaves? ==> y.stored.None?)
  }

  function HealthNext(cfg: Config, y: HealthStory, s: State, h: HandlerId, e: Event): HealthStory
    requires h in s.handlers
  {
    var pc := s.handlers[h].pc;
    match e
    case GiveUp(_) => y.(ended := Some(true))
    case HealthReturns(_, result) => y.(probe := Some(Answered(result)))
    case BackendPanics(_) => y.(probe := Some(Broke))
    case Step(_) =>
      if pc.CheckingCache? then y.(first := Some(LiveIn(cfg, s)))
      else if pc.HealthEntered? then y.(ended := Some(s.handlers[h].canceled))
      else if pc.Rechecking? then y.(second := Some(LiveIn(cfg, s)))
      else if pc.Probed? then y.(late := Some(s.handlers[h].canceled))
      else if pc.Storing? then y.(stored := Some(s.now))
      else y
    case _ => y
  }

  function HealthTrailNext(w: HealthTrail, n: nat, pc: Pc): HealthTrail {
    if pc.CheckingCache? then w.(look := n)
    else if pc.HealthWaits? || pc.HealthEntered? then w.(test := n)
    else if pc.Rechecking? then w.(recheck := n)
    else if pc.Probing? then w.(probe := n)
    else if pc.Probed? then w.(keep := n)
    else if pc.Storing? then w.(store := n)
    else w
  }

  /** The story fits where the handler stands. */
  predicate HealthFits(s: State, h: HandlerId, y: HealthStory) {
    h in s.handlers && HealthTold(s.handlers[h].pc, y) && HealthPending(s.handlers[h].pc, y)
  }

  lemma HealthStepFits(cfg: Config, s: State, h: HandlerId, s': State, y: HealthStory)
    requires HealthFits(s, h, y) && StepHealth(cfg, s, h) == Some(s') && h in s'.handlers
    ensures HealthFits(s', h, HealthNext(cfg, y, s, h, Step(h)))
    ensures s.handlers[h].pc.Storing? ==>
              s'.cache == if cfg.healthCacheTTL < 0 then s.cache
                          else HealthCache(Some(s.now), s.handlers[h].pc.result)
  {
  }

  lemma HealthEventFits(cfg: Config, s: State, e: Event, h: HandlerId, s': State, y: HealthStory)
    requires HealthFits(s, h, y) && InHealth(s.handlers[h].pc)
    requires External(cfg, s, e, h) == Some(s') && h in s'.handlers && Touches(e, h)
    ensures HealthFits(s', h, HealthNext(cfg, y, s, h, e))
    ensures (e.GiveUp? && s.handlers[h].pc.HealthWaits? && s.handlers[h].canceled)
            || ((e.HealthReturns? || e.BackendPanics?) && s.handlers[h].pc.Probing?)
  {
  }

  lemma HealthStays(cfg: Config, states: seq<State>, events: seq<Event>, n: nat, h: HandlerId, y: HealthStory,
                    w: HealthTrail)
    requires n < |events| && HealthSeen(cfg, states, events, n, h, y, w)
    ensures HealthSeen(cfg, states, events, n + 1, h, y, w)
  {
  }

  /** Event n is one of a handler with this story, and can happen there. */
  ghost predicate HealthMeets(cfg: Config, states: seq<State>, events: seq<Event>, n: nat, h: HandlerId, y: HealthStory,
                              w: HealthTrail) {
    && n + 1 < |states| && n < |events| && HealthFits(states[n], h, y) && HealthSeen(cfg, states, events, n, h, y, w)
    && var s, e, pc := states[n], events[n], states[n].handlers[h].pc;
       && InHealth(pc)
       && (e == Step(h) || (e == GiveUp(h) && pc.HealthWaits? && s.handlers[h].canceled)
           || (e.HealthReturns? && e.h == h && pc.Probing?) || (e == BackendPanics(h) && pc.Probing?))
       && (e.Step? && pc.Storing? ==>
             states[n + 1].cache == if cfg.healthCacheTTL < 0 then s.cache else HealthCache(Some(s.now), pc.result))
       && (e.Step? ==> !pc.Probing?)
  }

  lemma SeesFirst(cfg: Config, states: seq<State>, events: seq<Event>, n: nat, h: HandlerId, y: HealthStory,
                  w: HealthTrail)
    requires HealthMeets(cfg, states, events, n, h, y, w)
    requires var pc := states[n].handlers[h].pc; pc.CheckingCache? || pc.HealthWaits? || pc.HealthEntered?
    ensures HealthSeen(cfg, states, events, n + 1, h, HealthNext(cfg, y, states[n], h, events[n]),
                       HealthTrailNext(w, n, states[n].handlers[h].pc))
  {
    HealthStays(cfg, states, events, n, h, y, w);
  }

  lemma SeesProbe(cfg: Config, states: seq<State>, events: seq<Event>, n: nat, h: HandlerId, y: HealthStory,
                  w: HealthTrail)
    requires HealthMeets(cfg, states, events, n, h, y, w)
    requires states[n].handlers[h].pc.Rechecking? || states[n].handlers[h].pc.Probing?
    ensures HealthSeen(cfg, states, events, n + 1, h, HealthNext(cfg, y, states[n], h, events[n]),
                       HealthTrailNext(w, n, states[n].handlers[h].pc))
  {
    HealthStays(cfg, states, events, n, h, y, w);
  }

  lemma SeesStore(cfg: Config, states: seq<State>, events: seq<Event>, n: nat, h: HandlerId, y: HealthStory,
                  w: HealthTrail)
    requires HealthMeets(cfg, states, events, n, h, y, w)
    requires states[n].handlers[h].pc.Probed? || states[n].handlers[h].pc.Storing?
    ensures HealthSeen(cfg, states, events, n + 1, h, HealthNext(cfg, y, states[n], h, events[n]),
                       HealthTrailNext(w, n, states[n].handlers[h].pc))
  {
    HealthStays(cfg, states, events, n, h, y, w);
  }

  lemma HealthSees(cfg: Config, states: seq<State>, events: seq<Event>, n: nat, h: HandlerId, y: HealthStory,
                   w: HealthTrail)
    requires HealthMeets(cfg, states, events, n, h, y, w)
    ensures HealthSeen(cfg, states, events, n + 1, h, HealthNext(cfg, y, states[n], h, events[n]),
                       HealthTrailNext(w, n, states[n].handlers[h].pc))
  {
    var pc := states[n].handlers[h].pc;
    if pc.CheckingCache? || pc.HealthWaits? || pc.HealthEntered? {
      SeesFirst(cfg, states, events, n, h, y, w);
    } else if pc.Rechecking? || pc.Probing? {
      SeesProbe(cfg, states, events, n, h, y, w);
    } else if pc.Probed? || pc.Storing? {
      SeesStore(cfg, states, events, n, h, y, w);
    } else {
      HealthStays(cfg, states, events, n, h, y, w);
    }
  }

  /** Nothing happens to a handler that is done. */
  lemma DoneIsDone(cfg: Config, s: State, e: Event, s': State, h: HandlerId)
    requires Next(cfg, s, e) == Some(s') && h in s.handlers && s.handlers[h].pc.Done?
    ensures !Touches(e, h)
  {
  }

  lemma HealthStoryStep(cfg: Config, states: seq<State>, events: seq<Event>, n: nat, h: HandlerId, y: HealthStory,
                        w: HealthTrail)
    returns (y': HealthStory, w': HealthTrail)
    requires IsRun(cfg, states, events) && n + 1 < |states| && HealthFits(states[n], h, y)
    requires HealthSeen(cfg, states, events, n, h, y, w)
    ensures HealthFits(states[n + 1], h, y') && HealthSeen(cfg, states, events, n + 1, h, y', w')
  {
    var s, e, s' := states[n], events[n], states[n + 1];
    assert Next(cfg, s, e) == Some(s');
    if Touches(e, h) {
      if s.handlers[h].pc.Done? {
        DoneIsDone(cfg, s, e, s', h);
      }
      y', w' := HealthNext(cfg, y, s, h, e), HealthTrailNext(w, n, s.handlers[h].pc);
      OwnHandler(cfg, s, e, s', h);
      if e.Step? {
        HealthStepFits(cfg, s, h, s', y);
      } else {
        HealthEventFits(cfg, s, e, h, s', y);
      }
      HealthSees(cfg, states, events, n, h, y, w);
    } else {
      y', w' := y, w;
      SamePlace(cfg, s, e, s', h);
      HealthStays(cfg, states, events, n, h, y, w);
    }
  }

  predicate ArrivedForHealth(s: State, h: HandlerId) {
    h in s.handlers && s.handlers[h] == NewHandler(CheckingCache)
  }

  lemma {:induction false} HealthStoryOf(cfg: Config, states: seq<State>, events: seq<Event>, i: nat, n: nat,
                                         h: HandlerId)
    returns (y: HealthStory, w: HealthTrail)
    requires IsRun(cfg, states, events) && i <= n < |states| && ArrivedForHealth(states[i], h)
    ensures HealthFits(states[n], h, y) && HealthSeen(cfg, states, events, n, h, y, w)
  {
    if i == n {
      y, w := HealthStory(None, None, None, None, None, None), HealthTrail(0, 0, 0, 0, 0, 0);
    } else {
      y, w := HealthStoryOf(cfg, states, events, i, n - 1, h);
      y, w := HealthStoryStep(cfg, states, events, n - 1, h, y, w);
    }
  }

  /** In every interleaving, the reply to /health is what the code owes to what the handler has met: a result that was
      live at the first or, with the token in hand, at the second look is repeated without a probe; a context that had
      ended at the wait for the token or at the test after it is reported; and otherwise the reply is what the backend
      returned, which is stored at once unless the context had ended when tested after the probe. */
  lemma HealthReplyIsDecided(cfg: Config, states: seq<State>, events: seq<Event>, i: nat, n: nat, h: HandlerId)
    returns (y: HealthStory, w: HealthTrail)
    requires IsRun(cfg, states, events) && i <= n < |states| && ArrivedForHealth(states[i], h)
    requires h in states[n].handlers && states[n].handlers[h].pc.Done?
    ensures HealthSeen(cfg, states, events, n, h, y, w)
    ensures HealthOwes(y, states[n].handlers[h].pc.reply)
  {
    y, w := HealthStoryOf(cfg, states, events, i, n, h);
  }
}
