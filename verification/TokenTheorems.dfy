/** What holds over whole runs of the handler protocol: any number of handlers, cancellations and panics. */
module TokenTheorems {
  import opened Common
  import opened TokenProtocol
  import opened TokenInvariant

  predicate Live(s: State, h: HandlerId) {
    h in s.handlers && !s.handlers[h].pc.Done?
  }

  predicate At(s: State, h: HandlerId, pc: Pc) {
    h in s.handlers && s.handlers[h].pc == pc
  }

  // ---------------------------------------------------------------- the token and the upload slots

  /** A Signer.Sign or Signer.Health call is executing. */
  predicate InBackend(pc: Pc) {
    pc.Probing? || pc.Signing?
  }

  /** At most one backend operation executes at a time. */
  lemma BackendIsExclusive(cfg: Config, states: seq<State>, events: seq<Event>, n: nat, h: HandlerId, d: HandlerId)
    requires IsRun(cfg, states, events) && n < |states|
    requires h in states[n].handlers && d in states[n].handlers
    requires InBackend(states[n].handlers[h].pc) && InBackend(states[n].handlers[d].pc)
    ensures h == d
  {
    RunInv(cfg, states, events, n);
    OneInside(states[n], h, d);
  }

  /** Conservation: a channel holds exactly one item for each handler inside; when every handler has
      returned or panicked, both channels are empty again. */
  lemma NoSlotIsLost(cfg: Config, states: seq<State>, events: seq<Event>, n: nat)
    requires IsRun(cfg, states, events) && n < |states|
    ensures states[n].token == |Inside(states[n])| <= 1 && states[n].uploads == |Slots(states[n])| <= 2
    ensures (forall h :: h in states[n].handlers ==> states[n].handlers[h].pc.Done?) ==>
              states[n].token == 0 && states[n].uploads == 0
  {
    RunInv(cfg, states, events, n);
    var s := states[n];
    if forall h :: h in s.handlers ==> s.handlers[h].pc.Done? {
      assert Inside(s) == {} && Slots(s) == {};
    }
  }

  ghost function Pick(ids: set<HandlerId>): HandlerId
    requires ids != {}
    ensures Pick(ids) in ids
  {
    var h :| h in ids; h
  }

  /** The bytes that the given requests keep on disk. */
  ghost function TotalBytes(s: State, ids: set<HandlerId>): nat
    requires ids <= s.handlers.Keys
  {
    if ids == {} then 0 else s.handlers[Pick(ids)].bytes + TotalBytes(s, ids - {Pick(ids)})
  }

  lemma {:induction false} BytesPerSlot(s: State, ids: set<HandlerId>, maxBody: nat)
    requires ids <= s.handlers.Keys
    requires forall h :: h in ids ==> s.handlers[h].bytes <= if h in Slots(s) then maxBody else 0
    ensures TotalBytes(s, ids) <= |ids * Slots(s)| * maxBody
  {
    if ids != {} {
      var h := Pick(ids);
      var rest := ids - {h};
      BytesPerSlot(s, rest, maxBody);
      if h in Slots(s) {
        assert ids * Slots(s) == rest * Slots(s) + {h};
        Multiply(|rest * Slots(s)|, maxBody);
      } else {
        assert ids * Slots(s) == rest * Slots(s);
      }
    }
  }

  lemma Multiply(k: nat, m: nat)
    ensures (k + 1) * m == k * m + m
  {
  }

  lemma AtMostTwice(k: nat, m: nat)
    requires k <= 2
    ensures k * m <= 2 * m
  {
  }

  /** All uploads together never keep more than 2 * MaxBody on disk (directory removal succeeding). */
  lemma RetainedBytesAreBounded(cfg: Config, states: seq<State>, events: seq<Event>, n: nat)
    requires IsRun(cfg, states, events) && n < |states|
    ensures TotalBytes(states[n], states[n].handlers.Keys) <= 2 * cfg.maxBody
  {
    var s := states[n];
    RunInv(cfg, states, events, n);
    forall h | h in s.handlers ensures s.handlers[h].bytes <= if h in Slots(s) then cfg.maxBody else 0 {
      assert HandlerOk(cfg, s, s.handlers[h]);
    }
    BytesPerSlot(s, s.handlers.Keys, cfg.maxBody);
    assert s.handlers.Keys * Slots(s) == Slots(s);
    AtMostTwice(|Slots(s)|, cfg.maxBody);
  }

  // ---------------------------------------------------------------- one step of one handler

  lemma RunHandlerOk(cfg: Config, states: seq<State>, events: seq<Event>, n: nat, h: HandlerId)
    requires IsRun(cfg, states, events) && n < |states|
    ensures h in states[n].handlers ==> HandlerOk(cfg, states[n], states[n].handlers[h])
  {
    RunInv(cfg, states, events, n);
  }

  /** Only its own events, and the end of its context, touch a handler. */
  lemma OthersUntouched(cfg: Config, s: State, e: Event, s': State, h: HandlerId)
    requires Next(cfg, s, e) == Some(s') && h in s.handlers && (e.Tick? || e.h != h)
    ensures h in s'.handlers && s'.handlers[h] == s.handlers[h]
  {
    match e
    case Tick(_) =>
    case ArriveHealth(_) =>
    case ArriveSign(_) =>
    case Cancel(_) =>
    case Step(d) =>
      if InHealth(s.handlers[d].pc) {
        HealthTouchesOne(cfg, s, d, s');
      } else {
        SignTouchesOne(s, d, s');
      }
    case _ => ExternalTouchesOne(cfg, s, e, e.h, s');
  }

  lemma HealthTouchesOne(cfg: Config, s: State, d: HandlerId, s': State)
    requires d in s.handlers && StepHealth(cfg, s, d) == Some(s')
    ensures d in s'.handlers && s'.handlers == s.handlers[d := s'.handlers[d]]
  {
  }

  lemma SignTouchesOne(s: State, d: HandlerId, s': State)
    requires d in s.handlers && StepSign(s, d) == Some(s')
    ensures d in s'.handlers && s'.handlers == s.handlers[d := s'.handlers[d]]
  {
  }

  lemma ExternalTouchesOne(cfg: Config, s: State, e: Event, d: HandlerId, s': State)
    requires d in s.handlers && External(cfg, s, e, d) == Some(s')
    ensures d in s'.handlers && s'.handlers == s.handlers[d := s'.handlers[d]]
  {
  }

  /** A step of handleSign stays in handleSign. */
  lemma SignEdge(cfg: Config, s: State, h: HandlerId, s': State)
    requires h in s.handlers && HandlerOk(cfg, s, s.handlers[h]) && StepSign(s, h) == Some(s')
    ensures h in s'.handlers && !InHealth(s'.handlers[h].pc)
    ensures s'.handlers[h].pc.Done? ==> s'.handlers[h].pc.reply.SignReply? || s'.handlers[h].pc.reply.Aborted?
    ensures PassedTest(s'.handlers[h].pc) ==> PassedTest(s.handlers[h].pc) || TestedLive(s, h)
    ensures s'.handlers[h].pc == Done(Aborted) ==> s.handlers[h].pc.LeavingSlot?
  {
  }

  /** What an external event can make of a handler. */
  lemma ExternalEdge(cfg: Config, s: State, e: Event, h: HandlerId, s': State)
    requires h in s.handlers && External(cfg, s, e, h) == Some(s')
    ensures h in s'.handlers && !PassedTest(s'.handlers[h].pc)
    ensures var pc, pc' := s.handlers[h].pc, s'.handlers[h].pc;
      && (InHealth(pc') ==>
            pc.Probing? && ((e.HealthReturns? && pc' == Probed(e.result)) || pc' == HealthLeaves(Aborted)))
      && (pc'.Done? && !pc'.reply.SignReply? ==>
            pc' == Done(HealthCanceled) && pc.HealthWaits? && s.handlers[h].canceled)
  {
  }

  // ---------------------------------------------------------------- operations need a live context

  /** Past the context test of withToken, up to the backend call. */
  predicate PassedTest(pc: Pc) {
    pc.Rechecking? || pc.ProbeReady? || pc.Probing? || pc.SignReady? || pc.Signing?
  }

  predicate TestedLive(s: State, h: HandlerId) {
    h in s.handlers && (s.handlers[h].pc.HealthEntered? || s.handlers[h].pc.SignEntered?) && !s.handlers[h].canceled
  }

  lemma HealthTest(cfg: Config, s: State, h: HandlerId, s': State)
    requires h in s.handlers && StepHealth(cfg, s, h) == Some(s') && h in s'.handlers && PassedTest(s'.handlers[h].pc)
    ensures PassedTest(s.handlers[h].pc) || TestedLive(s, h)
  {
  }

  lemma TestStep(cfg: Config, s: State, e: Event, s': State, h: HandlerId)
    requires h in s.handlers ==> HandlerOk(cfg, s, s.handlers[h])
    requires Next(cfg, s, e) == Some(s') && h in s'.handlers && PassedTest(s'.handlers[h].pc)
    ensures h in s.handlers && (PassedTest(s.handlers[h].pc) || TestedLive(s, h))
  {
    if h in s.handlers && (e.Tick? || e.h != h) {
      OthersUntouched(cfg, s, e, s', h);
    } else if e.Step? && InHealth(s.handlers[h].pc) {
      HealthTest(cfg, s, h, s');
    } else if e.Step? {
      SignEdge(cfg, s, h, s');
    } else if !e.Cancel? && !e.ArriveHealth? && !e.ArriveSign? {
      ExternalEdge(cfg, s, e, h, s');
    }
  }

  /** No operation runs unless its context was live at the test made while holding the token. */
  lemma {:induction false} OperationHadLiveContext(cfg: Config, states: seq<State>, events: seq<Event>, n: nat,
                                                   h: HandlerId)
    requires IsRun(cfg, states, events) && n < |states|
    requires h in states[n].handlers && PassedTest(states[n].handlers[h].pc)
    ensures exists j :: 0 <= j < n && TestedLive(states[j], h)
  {
    if n > 0 {
      RunHandlerOk(cfg, states, events, n - 1, h);
      TestStep(cfg, states[n - 1], events[n - 1], states[n], h);
      if !TestedLive(states[n - 1], h) {
        OperationHadLiveContext(cfg, states, events, n - 1, h);
      }
    }
  }

  // ---------------------------------------------------------------- what /health answers

  /** The handler has settled on this reply. */
  predicate Settled(s: State, h: HandlerId, reply: Reply) {
    h in s.handlers && (s.handlers[h].pc == HealthLeaves(reply) || s.handlers[h].pc == Done(reply))
  }

  /** The handler's probe of the backend came back with this result. */
  predicate HasResult(s: State, h: HandlerId, result: Health) {
    At(s, h, Probed(result)) || At(s, h, Storing(result)) || Settled(s, h, HealthProbed(result))
  }

  /** How a reply comes about. */
  predicate Settles(cfg: Config, s: State, h: HandlerId, reply: Reply) {
    Live(s, h) && match reply
                  case HealthCached(result) => CachedHealth(cfg, s.cache, s.now) == Some(result)
                  case HealthProbed(result) => HasResult(s, h, result)
                  case HealthCanceled => s.handlers[h].canceled
                  case _ => true
  }

  lemma HealthSettles(cfg: Config, s: State, h: HandlerId, s': State, reply: Reply)
    requires h in s.handlers && StepHealth(cfg, s, h) == Some(s') && h in s'.handlers && Settled(s', h, reply)
    ensures Settled(s, h, reply) || Settles(cfg, s, h, reply)
  {
  }

  lemma SettleStep(cfg: Config, s: State, e: Event, s': State, h: HandlerId, reply: Reply)
    requires h in s.handlers ==> HandlerOk(cfg, s, s.handlers[h])
    requires Next(cfg, s, e) == Some(s') && Settled(s', h, reply) && !reply.SignReply?
    ensures Settled(s, h, reply) || Settles(cfg, s, h, reply)
  {
    if h in s.handlers && (e.Tick? || e.h != h) {
      OthersUntouched(cfg, s, e, s', h);
    } else if e.Step? && InHealth(s.handlers[h].pc) {
      HealthSettles(cfg, s, h, s', reply);
    } else if e.Step? {
      SignEdge(cfg, s, h, s');
    } else if !e.Cancel? && !e.ArriveHealth? && !e.ArriveSign? {
      ExternalEdge(cfg, s, e, h, s');
    }
  }

  lemma {:induction false} ReplyWasSettled(cfg: Config, states: seq<State>, events: seq<Event>, n: nat,
                                           h: HandlerId, reply: Reply)
    requires IsRun(cfg, states, events) && n < |states| && Settled(states[n], h, reply) && !reply.SignReply?
    ensures exists j :: 0 <= j < n && Settles(cfg, states[j], h, reply)
  {
    if n > 0 {
      RunHandlerOk(cfg, states, events, n - 1, h);
      SettleStep(cfg, states[n - 1], events[n - 1], states[n], h, reply);
      if !Settles(cfg, states[n - 1], h, reply) {
        ReplyWasSettled(cfg, states, events, n - 1, h, reply);
      }
    }
  }

  lemma HealthResult(cfg: Config, s: State, h: HandlerId, s': State, result: Health)
    requires h in s.handlers && StepHealth(cfg, s, h) == Some(s') && h in s'.handlers && HasResult(s', h, result)
    ensures HasResult(s, h, result)
  {
  }

  lemma ResultStep(cfg: Config, s: State, e: Event, s': State, h: HandlerId, result: Health)
    requires h in s.handlers ==> HandlerOk(cfg, s, s.handlers[h])
    requires Next(cfg, s, e) == Some(s') && HasResult(s', h, result)
    ensures HasResult(s, h, result) || (At(s, h, Probing) && e == HealthReturns(h, result))
  {
    if h in s.handlers && (e.Tick? || e.h != h) {
      OthersUntouched(cfg, s, e, s', h);
    } else if e.Step? {
      ResultOwnStep(cfg, s, h, s', result);
    } else if !e.Cancel? && !e.ArriveHealth? && !e.ArriveSign? {
      ExternalEdge(cfg, s, e, h, s');
    }
  }

  lemma ResultOwnStep(cfg: Config, s: State, h: HandlerId, s': State, result: Health)
    requires h in s.handlers && HandlerOk(cfg, s, s.handlers[h])
    requires StepHandler(cfg, s, h) == Some(s') && HasResult(s', h, result)
    ensures HasResult(s, h, result)
  {
    if InHealth(s.handlers[h].pc) {
      HealthResult(cfg, s, h, s', result);
    } else {
      SignEdge(cfg, s, h, s');
    }
  }

  /** Event j is the return of the backend's Health to handler `h`. */
  predicate Returns(states: seq<State>, events: seq<Event>, j: int, h: HandlerId, result: Health) {
    0 <= j < |states| && j < |events| && At(states[j], h, Probing) && events[j] == HealthReturns(h, result)
  }

  lemma ResultStepInRun(cfg: Config, states: seq<State>, events: seq<Event>, n: nat, h: HandlerId, result: Health)
    requires IsRun(cfg, states, events) && n + 1 < |states| && HasResult(states[n + 1], h, result)
    ensures HasResult(states[n], h, result) || Returns(states, events, n, h, result)
  {
    RunHandlerOk(cfg, states, events, n, h);
    ResultStep(cfg, states[n], events[n], states[n + 1], h, result);
  }

  /** A probe's result is what the backend returned to that very handler. */
  lemma {:induction false} ResultCameFromBackend(cfg: Config, states: seq<State>, events: seq<Event>, n: nat,
                                                 h: HandlerId, result: Health)
    requires IsRun(cfg, states, events) && n < |states| && HasResult(states[n], h, result)
    ensures exists j :: 0 <= j < n && Returns(states, events, j, h, result)
    ensures exists j :: 0 <= j < n && At(states[j], h, Probing) && events[j] == HealthReturns(h, result)
  {
    if n > 0 {
      ResultStepInRun(cfg, states, events, n - 1, h, result);
      if HasResult(states[n - 1], h, result) {
        ResultCameFromBackend(cfg, states, events, n - 1, h, result);
      } else {
        assert Returns(states, events, n - 1, h, result);
      }
    }
  }

  /** A result is stored only by a handler whose context was live when it looked. */
  predicate StoresNow(cfg: Config, s: State, e: Event, result: Health) {
    cfg.healthCacheTTL >= 0 && e.Step? && At(s, e.h, Storing(result))
  }

  lemma CacheStep(cfg: Config, s: State, e: Event, s': State)
    requires Next(cfg, s, e) == Some(s')
    ensures s'.cache == s.cache
            || (e.Step? && e.h in s.handlers && s.handlers[e.h].pc.Storing?
                && StoresNow(cfg, s, e, s.handlers[e.h].pc.result)
                && s'.cache == HealthCache(Some(s.now), s.handlers[e.h].pc.result))
  {
  }

  /** A usable cache entry is the result that some handler stored at the recorded instant. */
  lemma {:induction false} CacheWasStored(cfg: Config, states: seq<State>, events: seq<Event>, n: nat)
    requires IsRun(cfg, states, events) && n < |states| && states[n].cache.healthAt.Some?
    ensures exists j :: 0 <= j < n && StoresNow(cfg, states[j], events[j], states[n].cache.healthErr)
                        && states[n].cache.healthAt == Some(states[j].now)
  {
    if n > 0 {
      CacheStep(cfg, states[n - 1], events[n - 1], states[n]);
      if states[n].cache == states[n - 1].cache {
        CacheWasStored(cfg, states, events, n - 1);
      }
    }
  }

  predicate LiveResult(s: State, h: HandlerId, result: Health) {
    At(s, h, Probed(result)) && !s.handlers[h].canceled
  }

  lemma HealthStores(cfg: Config, s: State, h: HandlerId, s': State, result: Health)
    requires h in s.handlers && StepHealth(cfg, s, h) == Some(s') && h in s'.handlers && At(s', h, Storing(result))
    ensures LiveResult(s, h, result)
  {
  }

  lemma StoringStep(cfg: Config, s: State, e: Event, s': State, h: HandlerId, result: Health)
    requires h in s.handlers ==> HandlerOk(cfg, s, s.handlers[h])
    requires Next(cfg, s, e) == Some(s') && At(s', h, Storing(result))
    ensures At(s, h, Storing(result)) || LiveResult(s, h, result)
  {
    if h in s.handlers && (e.Tick? || e.h != h) {
      OthersUntouched(cfg, s, e, s', h);
    } else if e.Step? && InHealth(s.handlers[h].pc) {
      HealthStores(cfg, s, h, s', result);
    } else if e.Step? {
      SignEdge(cfg, s, h, s');
    } else if !e.Cancel? && !e.ArriveHealth? && !e.ArriveSign? {
      ExternalEdge(cfg, s, e, h, s');
    }
  }

  lemma {:induction false} StoredProbeWasLive(cfg: Config, states: seq<State>, events: seq<Event>, n: nat,
                                              h: HandlerId, result: Health)
    requires IsRun(cfg, states, events) && n < |states| && At(states[n], h, Storing(result))
    ensures exists j :: 0 <= j < n && LiveResult(states[j], h, result)
  {
    if n > 0 {
      RunHandlerOk(cfg, states, events, n - 1, h);
      StoringStep(cfg, states[n - 1], events[n - 1], states[n], h, result);
      if !LiveResult(states[n - 1], h, result) {
        StoredProbeWasLive(cfg, states, events, n - 1, h, result);
      }
    }
  }

  /** Handler `d` got this result while its context was live (state i), stored it (state j), and it was
      less than a TTL old at an instant inside the call of `h` (state k). */
  ghost predicate Grounds(cfg: Config, states: seq<State>, events: seq<Event>, i: int, j: int, k: int, d: HandlerId,
                          h: HandlerId, result: Health)
    requires |states| == |events| + 1 && 0 <= i < j < k < |events|
  {
    && LiveResult(states[i], d, result)
    && events[j] == Step(d) && At(states[j], d, Storing(result))
    && Live(states[k], h) && states[k].now < states[j].now + cfg.healthCacheTTL
  }

  /** A /health reply from the cache is the result of a probe that may be reused. */
  lemma CachedReplyIsGrounded(cfg: Config, states: seq<State>, events: seq<Event>, n: nat, h: HandlerId, result: Health)
    requires IsRun(cfg, states, events) && n < |states| && At(states[n], h, Done(HealthCached(result)))
    ensures exists i, j, k, d :: 0 <= i < j < k < n && Grounds(cfg, states, events, i, j, k, d, h, result)
  {
    ReplyWasSettled(cfg, states, events, n, h, HealthCached(result));
    var k :| 0 <= k < n && Settles(cfg, states[k], h, HealthCached(result));
    CacheWasStored(cfg, states, events, k);
    var j :| 0 <= j < k && StoresNow(cfg, states[j], events[j], states[k].cache.healthErr)
             && states[k].cache.healthAt == Some(states[j].now);
    var d := events[j].h;
    StoredProbeWasLive(cfg, states, events, j, d, result);
    var i :| 0 <= i < j && LiveResult(states[i], d, result);
    assert Grounds(cfg, states, events, i, j, k, d, h, result);
  }

  /** The other replies: the handler's own probe, or a context that had ended. */
  lemma OtherRepliesAreGrounded(cfg: Config, states: seq<State>, events: seq<Event>, n: nat, h: HandlerId, reply: Reply)
    requires IsRun(cfg, states, events) && n < |states| && At(states[n], h, Done(reply))
    ensures reply.HealthProbed? ==>
              exists j :: 0 <= j < n && At(states[j], h, Probing) && events[j] == HealthReturns(h, reply.result)
    ensures reply.HealthCanceled? ==> exists j :: 0 <= j < n && Live(states[j], h) && states[j].handlers[h].canceled
  {
    if reply.HealthProbed? {
      ResultCameFromBackend(cfg, states, events, n, h, reply.result);
    }
    if reply.HealthCanceled? {
      ReplyWasSettled(cfg, states, events, n, h, reply);
    }
  }

  /** With the cache on, a probe starts only a full TTL after the last stored result. */
  lemma ProbeIsDue(cfg: Config, states: seq<State>, events: seq<Event>, n: nat, h: HandlerId)
    requires IsRun(cfg, states, events) && n < |events| && events[n] == Step(h) && At(states[n], h, ProbeReady)
    requires cfg.healthCacheTTL >= 0
    ensures states[n].stores != [] ==>
              states[n].stores[|states[n].stores| - 1] + cfg.healthCacheTTL <= states[n].now
  {
    RunInv(cfg, states, events, n);
    assert HandlerOk(cfg, states[n], states[n].handlers[h]);
  }

  /** Stored results are at least a TTL apart. */
  lemma {:induction false} StoresAreSpaced(cfg: Config, states: seq<State>, events: seq<Event>, n: nat, i: nat, j: nat)
    requires IsRun(cfg, states, events) && n < |states| && i < j < |states[n].stores| && cfg.healthCacheTTL >= 0
    ensures states[n].stores[i] + (j - i) * cfg.healthCacheTTL <= states[n].stores[j]
    decreases j
  {
    RunInv(cfg, states, events, n);
    var stores := states[n].stores;
    assert stores[j - 1] + cfg.healthCacheTTL <= stores[j - 1 + 1];
    if i + 1 < j {
      StoresAreSpaced(cfg, states, events, n, i, j - 1);
      Distribute(j - 1 - i, cfg.healthCacheTTL);
    }
  }

  lemma Distribute(k: int, m: int)
    ensures (k + 1) * m == k * m + m
  {
  }

  // ---------------------------------------------------------------- statuses

  /** What the client treats as worth another try. */
  predicate Retryable(status: int) {
    status in {502, 503, 504}
  }

  /** The status that the handler has sent to its peer; cleaning up comes after. */
  function Sent(pc: Pc): Option<int> {
    if (pc.Cleaning? || pc.LeavingSlot? || pc.Done?) && pc.reply.SignReply? then Some(pc.reply.status) else None
  }

  /** A request that is answered with a retryable status was never signed, and every request is signed
      at most once; a 200 means exactly once. */
  lemma StatusTellsSignCount(cfg: Config, states: seq<State>, events: seq<Event>, n: nat, h: HandlerId)
    requires IsRun(cfg, states, events) && n < |states| && h in states[n].handlers
    ensures states[n].handlers[h].signs <= 1
    ensures var sent, signs := Sent(states[n].handlers[h].pc), states[n].handlers[h].signs;
            sent.Some? ==>
              && (Retryable(sent.value) ==> sent.value == 503 && signs == 0)
              && (sent.value == 401 ==> signs == 0)
              && (sent.value == 200 ==> signs == 1)
  {
    RunInv(cfg, states, events, n);
    assert HandlerOk(cfg, states[n], states[n].handlers[h]);
  }

  // ---------------------------------------------------------------- no deadlock, bounded work

  /** An event of an unfinished handler that happens once its backend, its peer and its disk respond. */
  predicate Moves(cfg: Config, s: State, e: Event) {
    !e.Tick? && !e.Cancel? && Live(s, e.h) && Next(cfg, s, e).Some?
  }

  lemma HolderMoves(cfg: Config, s: State, h: HandlerId) returns (e: Event)
    requires Channels(s) && h in s.handlers && InToken(s.handlers[h].pc)
    ensures Moves(cfg, s, e)
  {
    assert h in Inside(s);
    assert |Inside(s)| > 0;
    var pc := s.handlers[h].pc;
    e := if pc.Probing? then HealthReturns(h, Healthy) else if pc.Signing? then SignReturns(h, true) else Step(h);
  }

  lemma OutsiderMoves(cfg: Config, s: State, h: HandlerId) returns (e: Event)
    requires Channels(s) && Live(s, h) && !InToken(s.handlers[h].pc) && s.token == 0
    ensures Moves(cfg, s, e)
  {
    var pc := s.handlers[h].pc;
    if pc.LeavingSlot? {
      assert h in Slots(s);
      assert |Slots(s)| > 0;
    }
    e := match pc
         case Authenticating => Authenticated(h, true)
         case Receiving => UploadEnds(h, Accepted)
         case Responding => ResponseEnds(h, 200)
         case _ => Step(h);
  }

  /** While a handler is unfinished, some unfinished handler can move. */
  lemma NoDeadlock(cfg: Config, s: State, h: HandlerId) returns (e: Event)
    requires Inv(cfg, s) && Live(s, h)
    ensures Moves(cfg, s, e)
  {
    if Inside(s) != {} {
      var d :| d in Inside(s);
      e := HolderMoves(cfg, s, d);
    } else {
      assert h !in Inside(s) && |Inside(s)| == 0;
      e := OutsiderMoves(cfg, s, h);
    }
  }

  function Rank(pc: Pc): nat {
    match pc
    case CheckingCache => 9
    case HealthWaits => 8
    case HealthEntered => 7
    case Rechecking => 6
    case ProbeReady => 5
    case Probing => 4
    case Probed(_) => 3
    case Storing(_) => 2
    case HealthLeaves(_) => 1
    case Authenticating => 11
    case TakingSlot => 10
    case Receiving => 9
    case SignWaits => 8
    case SignEntered => 7
    case SignReady => 6
    case Signing => 5
    case SignLeaves(_, _) => 4
    case Responding => 3
    case Cleaning(_) => 2
    case LeavingSlot(_) => 1
    case Done(_) => 0
  }

  /** What a handler can still do: own steps, and bytes to receive before it stops receiving. */
  function Measure(cfg: Config, handler: Handler): int {
    Rank(handler.pc)
    + if handler.pc.Authenticating? || handler.pc.TakingSlot? then cfg.maxBody
      else if handler.pc.Receiving? then cfg.maxBody - handler.bytes else 0
  }

  /** Every event of a handler, the end of its context aside, uses some of that up. */
  lemma MeasureFalls(cfg: Config, s: State, e: Event, s': State)
    requires Inv(cfg, s) && Next(cfg, s, e) == Some(s')
    requires !e.Tick? && !e.Cancel? && !e.ArriveHealth? && !e.ArriveSign?
    ensures e.h in s.handlers && e.h in s'.handlers
    ensures 0 <= Measure(cfg, s'.handlers[e.h]) < Measure(cfg, s.handlers[e.h]) <= 11 + cfg.maxBody
  {
    assert HandlerOk(cfg, s, s.handlers[e.h]);
    if e.Step? && InHealth(s.handlers[e.h].pc) {
      HealthMeasure(cfg, s, e.h, s');
    } else if e.Step? {
      SignMeasure(cfg, s, e.h, s');
    } else {
      ExternalMeasure(cfg, s, e, e.h, s');
    }
  }

  lemma HealthMeasure(cfg: Config, s: State, h: HandlerId, s': State)
    requires h in s.handlers && StepHealth(cfg, s, h) == Some(s')
    ensures h in s'.handlers && 0 <= Measure(cfg, s'.handlers[h]) < Measure(cfg, s.handlers[h]) <= 11
  {
  }

  lemma SignMeasure(cfg: Config, s: State, h: HandlerId, s': State)
    requires h in s.handlers && StepSign(s, h) == Some(s') && HandlerOk(cfg, s, s.handlers[h])
    ensures h in s'.handlers && 0 <= Measure(cfg, s'.handlers[h]) < Measure(cfg, s.handlers[h]) <= 11 + cfg.maxBody
  {
  }

  lemma ExternalMeasure(cfg: Config, s: State, e: Event, h: HandlerId, s': State)
    requires h in s.handlers && External(cfg, s, e, h) == Some(s') && HandlerOk(cfg, s, s.handlers[h])
    ensures h in s'.handlers && 0 <= Measure(cfg, s'.handlers[h]) < Measure(cfg, s.handlers[h]) <= 11 + cfg.maxBody
  {
  }

  /** An event of handler `h` that is not its arrival or the end of its context. */
  predicate Own(e: Event, h: HandlerId) {
    !e.Tick? && !e.Cancel? && !e.ArriveHealth? && !e.ArriveSign? && e.h == h
  }

  function OwnEvents(events: seq<Event>, n: nat, h: HandlerId): nat
    requires n <= |events|
  {
    if n == 0 then 0 else OwnEvents(events, n - 1, h) + if Own(events[n - 1], h) then 1 else 0
  }

  lemma MeasureStays(cfg: Config, s: State, e: Event, s': State, h: HandlerId)
    requires Next(cfg, s, e) == Some(s') && !Own(e, h) && h in s'.handlers
    ensures h in s.handlers ==> Measure(cfg, s'.handlers[h]) == Measure(cfg, s.handlers[h])
    ensures h !in s.handlers ==> Measure(cfg, s'.handlers[h]) <= 11 + cfg.maxBody
  {
    NewcomersArrive(cfg, s, e, s', h);
    if h in s.handlers && (e.Tick? || e.h != h) {
      OthersUntouched(cfg, s, e, s', h);
    }
  }

  lemma NewcomersArrive(cfg: Config, s: State, e: Event, s': State, h: HandlerId)
    requires Next(cfg, s, e) == Some(s')
    ensures h in s'.handlers ==> h in s.handlers || e == ArriveHealth(h) || e == ArriveSign(h)
  {
    match e
    case Tick(_) =>
    case ArriveHealth(_) =>
    case ArriveSign(_) =>
    case Cancel(_) =>
    case Step(d) =>
      if InHealth(s.handlers[d].pc) {
        HealthTouchesOne(cfg, s, d, s');
      } else {
        SignTouchesOne(s, d, s');
      }
    case _ => ExternalTouchesOne(cfg, s, e, e.h, s');
  }

  /** In any run, whatever the others do, a handler has at most 11 + MaxBody events of its own: the bytes of an
      upload may arrive one by one. */
  lemma {:induction false} HandlersAreBounded(cfg: Config, states: seq<State>, events: seq<Event>, n: nat, h: HandlerId)
    requires IsRun(cfg, states, events) && n < |states|
    ensures h in states[n].handlers ==>
              0 <= Measure(cfg, states[n].handlers[h])
              && OwnEvents(events, n, h) + Measure(cfg, states[n].handlers[h]) <= 11 + cfg.maxBody
    ensures h !in states[n].handlers ==> OwnEvents(events, n, h) == 0
  {
    RunHandlerOk(cfg, states, events, n, h);
    if n > 0 {
      var s, e, s' := states[n - 1], events[n - 1], states[n];
      HandlersAreBounded(cfg, states, events, n - 1, h);
      if Own(e, h) {
        RunInv(cfg, states, events, n - 1);
        MeasureFalls(cfg, s, e, s');
      } else {
        if h in s.handlers {
          HandlersStay(cfg, s, e, s', h);
        }
        if h in s'.handlers {
          MeasureStays(cfg, s, e, s', h);
        }
      }
    }
  }

  lemma HandlersStay(cfg: Config, s: State, e: Event, s': State, h: HandlerId)
    requires Next(cfg, s, e) == Some(s') && h in s.handlers && !Own(e, h)
    ensures h in s'.handlers
  {
    if e.Tick? || e.h != h {
      OthersUntouched(cfg, s, e, s', h);
    }
  }
}
