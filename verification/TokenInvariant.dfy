/** What every step of the handler protocol keeps. */
module TokenInvariant {
  import opened Common
  import opened TokenProtocol

  /** Between the channel send and the deferred receive of withToken. */
  predicate InToken(pc: Pc) {
    pc.HealthEntered? || pc.Rechecking? || pc.ProbeReady? || pc.Probing? || pc.Probed? || pc.Storing?
    || pc.HealthLeaves? || pc.SignEntered? || pc.SignReady? || pc.Signing? || pc.SignLeaves?
  }

  /** Between taking and releasing an upload slot. */
  predicate HoldsSlot(pc: Pc) {
    pc.Receiving? || pc.SignWaits? || pc.SignEntered? || pc.SignReady? || pc.Signing? || pc.SignLeaves?
    || pc.Responding? || pc.Cleaning? || pc.LeavingSlot?
  }

  /** A probe that goes to the backend, or comes from it. */
  predicate ProbesBackend(pc: Pc) {
    pc.ProbeReady? || pc.Probing? || pc.Probed? || pc.Storing?
  }

  ghost function Inside(s: State): set<HandlerId> {
    set h | h in s.handlers && InToken(s.handlers[h].pc)
  }

  ghost function Slots(s: State): set<HandlerId> {
    set h | h in s.handlers && HoldsSlot(s.handlers[h].pc)
  }

  /** The occupancy of each channel is the number of handlers that owe it a receive. */
  ghost predicate Channels(s: State) {
    && s.token == |Inside(s)| <= TOKEN_SLOTS
    && s.uploads == |Slots(s)| <= MAX_IN_FLIGHT_UPLOADS
  }

  /** No stored result is younger than the TTL, so far as the cache is in use. */
  predicate CacheExpired(cfg: Config, s: State) {
    CachedHealth(cfg, s.cache, s.now).None?
  }

  /** The pcs of handleSign before its one call of the backend. */
  predicate BeforeSign(pc: Pc) {
    pc.Authenticating? || pc.TakingSlot? || pc.Receiving? || pc.SignWaits? || pc.SignEntered? || pc.SignReady?
  }

  /** The replies of a request that took an upload slot. 503 is not among them. */
  predicate SlotReply(reply: Reply) {
    reply.Aborted? || (reply.SignReply? && (reply.status == 200 || reply.status in {400, 413, 415, 500}))
  }

  /** After Signer.Sign returned nil. */
  predicate AfterSign(pc: Pc) {
    (pc.SignLeaves? && pc.signed) || pc.Responding?
    || ((pc.Cleaning? || pc.LeavingSlot? || pc.Done?) && pc.reply == SignReply(200))
  }

  predicate HandlerOk(cfg: Config, s: State, handler: Handler) {
    var pc := handler.pc;
    && handler.bytes <= cfg.maxBody
    && (!HoldsSlot(pc) || pc.LeavingSlot? ==> handler.bytes == 0)
    && handler.signs <= 1
    && (BeforeSign(pc) || InHealth(pc) || pc in {Done(SignReply(401)), Done(SignReply(503))} ==> handler.signs == 0)
    && (pc.Signing? || AfterSign(pc) ==> handler.signs == 1)
    && (pc.SignLeaves? || pc.Cleaning? || pc.LeavingSlot? ==> SlotReply(pc.reply))
    && (pc.Done? && pc.reply.SignReply? ==> pc.reply.status in {401, 503} || SlotReply(pc.reply))
    && (pc.SignLeaves? ==> pc.reply != SignReply(200))
    && (pc.HealthLeaves? ==> !pc.reply.SignReply?)
    && (ProbesBackend(pc) ==> CacheExpired(cfg, s))
  }

  /** Stored results are at least a TTL apart, and the last one is in the cache. */
  ghost predicate StoreLog(cfg: Config, s: State) {
    && (forall i :: 0 <= i < |s.stores| - 1 ==> s.stores[i] + cfg.healthCacheTTL <= s.stores[i + 1])
    && (s.stores == [] ==> s.cache.healthAt == None)
    && (s.stores != [] ==> s.cache.healthAt == Some(s.stores[|s.stores| - 1]) && s.stores[|s.stores| - 1] <= s.now
                           && cfg.healthCacheTTL >= 0)
  }

  ghost predicate Inv(cfg: Config, s: State) {
    && Channels(s) && StoreLog(cfg, s)
    && forall h :: h in s.handlers ==> HandlerOk(cfg, s, s.handlers[h])
  }

  lemma InitInv(cfg: Config, now: int)
    ensures Inv(cfg, Init(now))
  {
    assert Inside(Init(now)) == {} && Slots(Init(now)) == {};
  }

  /** How one changed handler changes the two sets. */
  lemma PutSets(s: State, h: HandlerId, handler: Handler, s': State)
    requires s'.handlers == s.handlers[h := handler]
    ensures Inside(s') == if InToken(handler.pc) then Inside(s) + {h} else Inside(s) - {h}
    ensures Slots(s') == if HoldsSlot(handler.pc) then Slots(s) + {h} else Slots(s) - {h}
    ensures h in Inside(s) <==> h in s.handlers && InToken(s.handlers[h].pc)
    ensures h in Slots(s) <==> h in s.handlers && HoldsSlot(s.handlers[h].pc)
  {
  }

  function Claims(held: bool): int {
    if held then 1 else 0
  }

  /** A step changes the occupancy exactly when its handler enters or leaves. */
  predicate Balanced(s: State, h: HandlerId, s': State)
    requires h in s.handlers && h in s'.handlers
  {
    var pc, pc' := s.handlers[h].pc, s'.handlers[h].pc;
    && s'.handlers == s.handlers[h := s'.handlers[h]]
    && s'.token == s.token + Claims(InToken(pc')) - Claims(InToken(pc))
    && s'.uploads == s.uploads + Claims(HoldsSlot(pc')) - Claims(HoldsSlot(pc))
    && s'.token <= TOKEN_SLOTS && s'.uploads <= MAX_IN_FLIGHT_UPLOADS
  }

  lemma BalancedKeepsChannels(s: State, h: HandlerId, s': State)
    requires Channels(s) && h in s.handlers && h in s'.handlers && Balanced(s, h, s')
    ensures Channels(s')
  {
    PutSets(s, h, s'.handlers[h], s');
  }

  lemma HealthIsBalanced(cfg: Config, s: State, h: HandlerId, s': State)
    requires h in s.handlers && StepHealth(cfg, s, h) == Some(s')
    requires s.token <= TOKEN_SLOTS && s.uploads <= MAX_IN_FLIGHT_UPLOADS
    ensures h in s'.handlers && Balanced(s, h, s')
  {
  }

  lemma SignIsBalanced(s: State, h: HandlerId, s': State)
    requires h in s.handlers && StepSign(s, h) == Some(s')
    requires s.token <= TOKEN_SLOTS && s.uploads <= MAX_IN_FLIGHT_UPLOADS
    ensures h in s'.handlers && Balanced(s, h, s')
  {
  }

  lemma ExternalIsBalanced(cfg: Config, s: State, e: Event, h: HandlerId, s': State)
    requires h in s.handlers && External(cfg, s, e, h) == Some(s')
    requires s.token <= TOKEN_SLOTS && s.uploads <= MAX_IN_FLIGHT_UPLOADS
    ensures h in s'.handlers && Balanced(s, h, s')
    ensures s'.cache == s.cache && s'.stores == s.stores && s'.now == s.now
  {
  }

  lemma SameSets(s: State, h: HandlerId, handler: Handler, s': State)
    requires s'.handlers == s.handlers[h := handler]
    requires InToken(handler.pc) <==> h in Inside(s)
    requires HoldsSlot(handler.pc) <==> h in Slots(s)
    ensures Inside(s') == Inside(s) && Slots(s') == Slots(s)
  {
    PutSets(s, h, handler, s');
  }

  /** Arrivals and cancellations put a handler where it claims what it claimed before. */
  lemma QuietPut(cfg: Config, s: State, h: HandlerId, handler: Handler)
    requires Inv(cfg, s) && HandlerOk(cfg, s, handler)
    requires InToken(handler.pc) <==> h in Inside(s)
    requires HoldsSlot(handler.pc) <==> h in Slots(s)
    ensures Inv(cfg, Put(s, h, handler))
  {
    var s' := Put(s, h, handler);
    SameSets(s, h, handler, s');
    forall d | d in s'.handlers ensures HandlerOk(cfg, s', s'.handlers[d]) {
      var handler' := s'.handlers[d];
      assert HandlerOk(cfg, s, handler');
    }
  }

  lemma TickKeepsInv(cfg: Config, s: State, to: int)
    requires Inv(cfg, s) && s.now <= to
    ensures Inv(cfg, s.(now := to))
  {
    var s' := s.(now := to);
    assert Inside(s') == Inside(s) && Slots(s') == Slots(s);
    forall h | h in s.handlers ensures HandlerOk(cfg, s', s.handlers[h]) {
      assert HandlerOk(cfg, s, s.handlers[h]);
    }
  }

  lemma StoringIsOk(cfg: Config, s: State, h: HandlerId, s': State)
    requires h in s.handlers && HandlerOk(cfg, s, s.handlers[h]) && StoreLog(cfg, s)
    requires s.handlers[h].pc.Storing? && StepHealth(cfg, s, h) == Some(s')
    ensures HandlerOk(cfg, s', s'.handlers[h]) && StoreLog(cfg, s') && s'.now == s.now
  {
  }

  lemma HealthIsOk(cfg: Config, s: State, h: HandlerId, s': State)
    requires h in s.handlers && HandlerOk(cfg, s, s.handlers[h])
    requires !s.handlers[h].pc.Storing? && StepHealth(cfg, s, h) == Some(s')
    ensures HandlerOk(cfg, s', s'.handlers[h])
    ensures s'.cache == s.cache && s'.stores == s.stores && s'.now == s.now
  {
  }

  lemma SignIsOk(cfg: Config, s: State, h: HandlerId, s': State)
    requires h in s.handlers && HandlerOk(cfg, s, s.handlers[h]) && StepSign(s, h) == Some(s')
    ensures HandlerOk(cfg, s', s'.handlers[h])
    ensures s'.cache == s.cache && s'.stores == s.stores && s'.now == s.now
  {
  }

  lemma ExternalIsOk(cfg: Config, s: State, e: Event, h: HandlerId, s': State)
    requires h in s.handlers && HandlerOk(cfg, s, s.handlers[h]) && External(cfg, s, e, h) == Some(s')
    ensures HandlerOk(cfg, s', s'.handlers[h])
  {
  }

  /** The token has one holder. */
  lemma OneInside(s: State, h: HandlerId, h': HandlerId)
    requires Channels(s) && h in s.handlers && h' in s.handlers
    requires InToken(s.handlers[h].pc) && InToken(s.handlers[h'].pc)
    ensures h == h'
  {
    assert {h, h'} <= Inside(s);
    SubsetIsSmaller({h, h'}, Inside(s));
    assert h != h' ==> |{h, h'}| == 2;
  }

  lemma {:induction false} SubsetIsSmaller<T>(a: set<T>, b: set<T>)
    requires a <= b
    ensures |a| <= |b|
  {
    assert b == a + (b - a);
  }

  /** The handlers that did not move are still in order. */
  lemma OthersOk(cfg: Config, s: State, h: HandlerId, s': State, d: HandlerId)
    requires Channels(s) && h in s.handlers && d in s.handlers && h != d && HandlerOk(cfg, s, s.handlers[d])
    requires s'.now == s.now && (s'.cache == s.cache || ProbesBackend(s.handlers[h].pc))
    ensures HandlerOk(cfg, s', s.handlers[d])
  {
    if ProbesBackend(s.handlers[d].pc) && ProbesBackend(s.handlers[h].pc) {
      OneInside(s, h, d);
    }
  }

  /** One moved handler, in order and balanced, keeps the invariant. */
  lemma MovedKeepsInv(cfg: Config, s: State, h: HandlerId, s': State)
    requires Inv(cfg, s) && h in s.handlers && h in s'.handlers && Balanced(s, h, s')
    requires HandlerOk(cfg, s', s'.handlers[h]) && StoreLog(cfg, s')
    requires s'.now == s.now && (s'.cache == s.cache || ProbesBackend(s.handlers[h].pc))
    ensures Inv(cfg, s')
  {
    BalancedKeepsChannels(s, h, s');
    forall d | d in s'.handlers ensures HandlerOk(cfg, s', s'.handlers[d]) {
      if d != h {
        OthersOk(cfg, s, h, s', d);
      }
    }
  }

  lemma StepKeepsInv(cfg: Config, s: State, h: HandlerId, s': State)
    requires Inv(cfg, s) && h in s.handlers && StepHandler(cfg, s, h) == Some(s')
    ensures Inv(cfg, s')
  {
    if InHealth(s.handlers[h].pc) {
      if s.handlers[h].pc.Storing? {
        StoringIsOk(cfg, s, h, s');
      } else {
        HealthIsOk(cfg, s, h, s');
      }
      HealthIsBalanced(cfg, s, h, s');
    } else {
      SignIsOk(cfg, s, h, s');
      SignIsBalanced(s, h, s');
    }
    MovedKeepsInv(cfg, s, h, s');
  }

  lemma ExternalKeepsInv(cfg: Config, s: State, e: Event, h: HandlerId, s': State)
    requires Inv(cfg, s) && h in s.handlers && External(cfg, s, e, h) == Some(s')
    ensures Inv(cfg, s')
  {
    ExternalIsBalanced(cfg, s, e, h, s');
    ExternalIsOk(cfg, s, e, h, s');
    MovedKeepsInv(cfg, s, h, s');
  }

  /** Every event keeps the invariant. */
  lemma NextKeepsInv(cfg: Config, s: State, e: Event, s': State)
    requires Inv(cfg, s) && Next(cfg, s, e) == Some(s')
    ensures Inv(cfg, s')
  {
    match e
    case Tick(to) => TickKeepsInv(cfg, s, to);
    case ArriveHealth(h) => QuietPut(cfg, s, h, NewHandler(CheckingCache));
    case ArriveSign(h) => QuietPut(cfg, s, h, NewHandler(Authenticating));
    case Cancel(h) => QuietPut(cfg, s, h, s.handlers[h].(canceled := true));
    case Step(h) => StepKeepsInv(cfg, s, h, s');
    case _ => ExternalKeepsInv(cfg, s, e, e.h, s');
  }

  lemma {:induction false} RunInv(cfg: Config, states: seq<State>, events: seq<Event>, n: nat)
    requires IsRun(cfg, states, events) && n < |states|
    ensures Inv(cfg, states[n])
  {
    if n == 0 {
      InitInv(cfg, states[0].now);
    } else {
      RunInv(cfg, states, events, n - 1);
      NextKeepsInv(cfg, states[n - 1], events[n - 1], states[n]);
    }
  }
}
