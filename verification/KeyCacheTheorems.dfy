/** What holds over whole runs of the key cache: any number of calls, any interleaving. */
module KeyCacheTheorems {
  import opened Common
  import opened KeySet
  import opened KeyCache
  import opened KeyCacheInvariant

  /** The call has been invoked and has not returned. */
  predicate Live(s: State, c: CallId) {
    c in s.calls && !s.calls[c].pc.Done?
  }

  predicate Returned(s: State, c: CallId, answer: KeyResult) {
    c in s.calls && s.calls[c].pc == Done(answer)
  }

  lemma {:induction false} RunInv(states: seq<State>, events: seq<Event>, n: nat)
    requires IsRun(states, events) && n < |states|
    ensures Inv(states[n])
  {
    if n == 0 {
      InitInv(states[0].now);
    } else {
      RunInv(states, events, n - 1);
      NextKeepsInv(states[n - 1], events[n - 1], states[n]);
    }
  }

  // ---------------------------------------------------------------- every returned key was fresh

  /** The call has decided that the present key set may be trusted. */
  predicate Trusts(pc: Pc) {
    || (pc.ReadFresh? && pc.isFresh)
    || (pc.RecheckedFresh? && pc.isFresh)
    || (pc.Rechecked? && pc.isFresh)
    || (pc.Written? && pc.outcome.LoadOk?)
    || (pc.Unlocking? && pc.result.Refreshed?)
    || pc.RereadReady? || pc.Rereading? || pc.Reread?
  }

  predicate TrustsNow(s: State, c: CallId) {
    c in s.calls && Trusts(s.calls[c].pc) && !MidStore(s)
  }

  lemma KeyTrusts(s: State, c: CallId, s': State)
    requires c in s.calls && CallLocks(s, c, s.calls[c].pc)
    requires StepKey(s, c) == Some(s') && TrustsNow(s', c)
    ensures CacheFresh(s'.cache, s'.now) || (TrustsNow(s, c) && s.cache.keys == s'.cache.keys)
  {
  }

  lemma RefreshTrusts(s: State, c: CallId, s': State)
    requires c in s.calls && CallLocks(s, c, s.calls[c].pc)
    requires StepRefresh(s, c) == Some(s') && TrustsNow(s', c)
    ensures CacheFresh(s'.cache, s'.now) || (TrustsNow(s, c) && s.cache.keys == s'.cache.keys)
  {
  }

  lemma StoreTrusts(s: State, c: CallId, s': State)
    requires c in s.calls && CallLocks(s, c, s.calls[c].pc)
    requires StepStore(s, c) == Some(s') && TrustsNow(s', c)
    ensures CacheFresh(s'.cache, s'.now) || (TrustsNow(s, c) && s.cache.keys == s'.cache.keys)
  {
  }

  lemma OwnStepTrusts(s: State, c: CallId, s': State)
    requires c in s.calls && CallLocks(s, c, s.calls[c].pc)
    requires StepCall(s, c) == Some(s') && TrustsNow(s', c)
    ensures CacheFresh(s'.cache, s'.now) || (TrustsNow(s, c) && s.cache.keys == s'.cache.keys)
  {
    var pc := s.calls[c].pc;
    if InKey(pc) {
      KeyTrusts(s, c, s');
    } else if InStore(pc) {
      StoreTrusts(s, c, s');
    } else {
      RefreshTrusts(s, c, s');
    }
  }

  lemma OtherStepTrusts(s: State, d: CallId, s': State)
    requires Inv(s) && d in s.calls && StepCall(s, d) == Some(s') && !MidStore(s')
    ensures CacheFresh(s'.cache, s'.now) || (!MidStore(s) && s.cache.keys == s'.cache.keys)
  {
    assert CallLocks(s, d, s.calls[d].pc) && CallData(s, s.calls[d]);
  }

  /** Trust begins, and resumes after a store, only at an instant of freshness. */
  lemma TrustStep(s: State, e: Event, s': State, c: CallId)
    requires Inv(s) && Inv(s') && Next(s, e) == Some(s') && TrustsNow(s', c)
    ensures CacheFresh(s'.cache, s'.now) || (TrustsNow(s, c) && s.cache.keys == s'.cache.keys)
  {
    match e
    case Tick(_) =>
    case Invoke(_, _) =>
    case LoadEnds(_, _) =>
    case Step(d) =>
      if c == d {
        OwnStepTrusts(s, c, s');
      } else {
        OtherStepTrusts(s, d, s');
        OthersUntouched(s, d, s', c);
      }
  }

  lemma OthersUntouched(s: State, d: CallId, s': State, c: CallId)
    requires d in s.calls && StepCall(s, d) == Some(s') && c != d
    ensures c in s.calls <==> c in s'.calls
    ensures c in s.calls ==> s.calls[c] == s'.calls[c]
  {
    StepMoves(s, d, s');
  }

  /** A read section never sees a half-stored key set. */
  lemma ReadersSeeWholeSets(s: State, c: CallId)
    requires Locks(s) && c in s.calls && HoldsRead(s.calls[c].pc)
    ensures !MidStore(s)
  {
    assert CallLocks(s, c, s.calls[c].pc);
    assert s.refreshMu.Some? ==> CallLocks(s, s.refreshMu.value, s.calls[s.refreshMu.value].pc);
  }

  lemma KeyFinds(s: State, c: CallId, s': State, key: PublicKey)
    requires c in s.calls && StepKey(s, c) == Some(s') && Returned(s', c, Found(key))
    ensures Trusts(s.calls[c].pc) && HoldsRead(s.calls[c].pc) && s'.calls[c].kid == s.calls[c].kid
    ensures Remembered(s.calls[c].pc) == Some(Some(key))
  {
  }

  lemma OnlyKeyFinds(s: State, c: CallId, s': State, key: PublicKey)
    requires c in s.calls && !InKey(s.calls[c].pc) && StepCall(s, c) == Some(s')
    ensures !Returned(s', c, Found(key))
  {
    if InStore(s.calls[c].pc) {
      StoreReturnsNothing(s, c, s');
    } else {
      RefreshFindsNothing(s, c, s');
    }
  }

  lemma StoreReturnsNothing(s: State, c: CallId, s': State)
    requires c in s.calls && StepStore(s, c) == Some(s')
    ensures c in s'.calls && !s'.calls[c].pc.Done?
  {
  }

  lemma RefreshFindsNothing(s: State, c: CallId, s': State)
    requires c in s.calls && StepRefresh(s, c) == Some(s')
    ensures c in s'.calls && (s'.calls[c].pc.Done? ==> !s'.calls[c].pc.answer.Found?)
  {
  }

  /** Only its own step makes a call return. */
  lemma NewReply(s: State, e: Event, s': State, c: CallId, answer: KeyResult)
    requires Next(s, e) == Some(s') && Returned(s', c, answer) && !Returned(s, c, answer)
    ensures c in s.calls && e == Step(c) && StepCall(s, c) == Some(s')
  {
    if e.Step? {
      StepMoves(s, e.c, s');
    }
  }

  /** A call that returns a key returns what the trusted set holds. */
  lemma FoundStep(s: State, e: Event, s': State, c: CallId, key: PublicKey)
    requires Inv(s) && Next(s, e) == Some(s') && Returned(s', c, Found(key)) && !Returned(s, c, Found(key))
    ensures TrustsNow(s, c) && s'.calls[c].kid == s.calls[c].kid
    ensures Lookup(s.cache.keys, s.calls[c].kid) == Some(key)
  {
    NewReply(s, e, s', c, Found(key));
    OwnStepFinds(s, c, s', key);
  }

  lemma OwnStepFinds(s: State, c: CallId, s': State, key: PublicKey)
    requires Inv(s) && c in s.calls && StepCall(s, c) == Some(s') && Returned(s', c, Found(key))
    ensures TrustsNow(s, c) && s'.calls[c].kid == s.calls[c].kid
    ensures Lookup(s.cache.keys, s.calls[c].kid) == Some(key)
  {
    if InKey(s.calls[c].pc) {
      KeyFinds(s, c, s', key);
      ReadersSeeWholeSets(s, c);
      assert CallData(s, s.calls[c]);
    } else {
      OnlyKeyFinds(s, c, s', key);
    }
  }

  ghost predicate FreshInstant(s: State, c: CallId, keys: KeyMap) {
    Live(s, c) && CacheFresh(s.cache, s.now) && s.cache.keys == keys
  }

  lemma {:induction false} TrustHasInstant(states: seq<State>, events: seq<Event>, n: nat, c: CallId)
    requires IsRun(states, events) && n < |states| && TrustsNow(states[n], c)
    ensures exists j :: 0 <= j <= n && FreshInstant(states[j], c, states[n].cache.keys)
  {
    if n > 0 {
      RunInv(states, events, n - 1);
      RunInv(states, events, n);
      TrustStep(states[n - 1], events[n - 1], states[n], c);
      if CacheFresh(states[n].cache, states[n].now) {
        assert FreshInstant(states[n], c, states[n].cache.keys);
      } else {
        TrustHasInstant(states, events, n - 1, c);
      }
    }
  }

  /** In every interleaving, a returned key was in the cache, under the requested key ID, at an
      instant between invocation and return at which the cache was fresh. */
  lemma {:induction false} ReturnedKeyWasFresh(states: seq<State>, events: seq<Event>, n: nat, c: CallId,
                                               key: PublicKey)
    requires IsRun(states, events) && n < |states| && Returned(states[n], c, Found(key))
    ensures exists j :: 0 <= j < n && Live(states[j], c) && CacheFresh(states[j].cache, states[j].now)
                        && Lookup(states[j].cache.keys, states[n].calls[c].kid) == Some(key)
  {
    if n > 0 {
      if Returned(states[n - 1], c, Found(key)) {
        NextKeepsCalls(states[n - 1], events[n - 1], states[n], c);
        ReturnedKeyWasFresh(states, events, n - 1, c, key);
      } else {
        RunInv(states, events, n - 1);
        FoundStep(states[n - 1], events[n - 1], states[n], c, key);
        TrustHasInstant(states, events, n - 1, c);
      }
    }
  }

  /** A call keeps its key ID, and once it has returned it stays returned. */
  lemma NextKeepsCalls(s: State, e: Event, s': State, c: CallId)
    requires Next(s, e) == Some(s') && c in s.calls
    ensures c in s'.calls && s'.calls[c].kid == s.calls[c].kid
    ensures s.calls[c].pc.Done? ==> s'.calls[c] == s.calls[c]
  {
    if e.Step? {
      StepMoves(s, e.c, s');
    }
  }

  // ---------------------------------------------------------------- every refusal is justified

  /** What an unfinished call remembers from its first read section. */
  function Remembered(pc: Pc): Option<Option<PublicKey>> {
    match pc
    case Invoked => None
    case Reading => None
    case RereadReady => None
    case Rereading => None
    case Reread(found) => Some(found)
    case Done(_) => None
    case _ => Some(pc.hit)
  }

  /** The call has found the cache stale. */
  predicate SawStale(pc: Pc) {
    (pc.ReadFresh? && !pc.isFresh) || pc.Refreshing? || HoldsRefresh(pc)
  }

  predicate RefreshDenied(pc: Pc) {
    pc.Unlocking? && !pc.result.Refreshed?
  }

  ghost predicate LookedUp(s: State, c: CallId, found: Option<PublicKey>) {
    Live(s, c) && !MidStore(s) && found == Lookup(s.cache.keys, s.calls[c].kid)
  }

  lemma KeyRemembers(s: State, c: CallId, s': State)
    requires Locks(s) && c in s.calls && StepKey(s, c) == Some(s') && c in s'.calls && Remembered(s'.calls[c].pc).Some?
    ensures Remembered(s'.calls[c].pc) == Remembered(s.calls[c].pc)
            || LookedUp(s, c, Remembered(s'.calls[c].pc).value)
  {
    if s.calls[c].pc.Reading? || s.calls[c].pc.Rereading? {
      ReadersSeeWholeSets(s, c);
    }
  }

  lemma RefreshRemembers(s: State, c: CallId, s': State)
    requires c in s.calls && StepRefresh(s, c) == Some(s') && c in s'.calls && Remembered(s'.calls[c].pc).Some?
    ensures Remembered(s'.calls[c].pc) == Remembered(s.calls[c].pc)
  {
  }

  lemma StoreRemembers(s: State, c: CallId, s': State)
    requires c in s.calls && StepStore(s, c) == Some(s') && c in s'.calls && Remembered(s'.calls[c].pc).Some?
    ensures Remembered(s'.calls[c].pc) == Remembered(s.calls[c].pc)
  {
  }

  lemma OwnStepRemembers(s: State, c: CallId, s': State)
    requires Inv(s) && c in s.calls && StepCall(s, c) == Some(s')
    requires c in s'.calls && Remembered(s'.calls[c].pc).Some?
    ensures s'.calls[c].kid == s.calls[c].kid
    ensures Remembered(s'.calls[c].pc) == Remembered(s.calls[c].pc)
            || LookedUp(s, c, Remembered(s'.calls[c].pc).value)
  {
    StepMoves(s, c, s');
    var pc := s.calls[c].pc;
    if InKey(pc) {
      KeyRemembers(s, c, s');
    } else if InStore(pc) {
      StoreRemembers(s, c, s');
    } else {
      RefreshRemembers(s, c, s');
    }
  }

  lemma RememberStep(s: State, e: Event, s': State, c: CallId)
    requires Inv(s) && Next(s, e) == Some(s') && c in s'.calls && Remembered(s'.calls[c].pc).Some?
    ensures c in s.calls && s'.calls[c].kid == s.calls[c].kid
    ensures Remembered(s'.calls[c].pc) == Remembered(s.calls[c].pc)
            || LookedUp(s, c, Remembered(s'.calls[c].pc).value)
  {
    if e.Step? {
      if e.c == c {
        OwnStepRemembers(s, c, s');
      } else {
        OthersUntouched(s, e.c, s', c);
      }
    }
  }

  lemma {:induction false} RememberedWasLookedUp(states: seq<State>, events: seq<Event>, n: nat, c: CallId)
    requires IsRun(states, events) && n < |states|
    requires c in states[n].calls && Remembered(states[n].calls[c].pc).Some?
    ensures exists j :: 0 <= j < n && LookedUp(states[j], c, Remembered(states[n].calls[c].pc).value)
                        && states[j].calls[c].kid == states[n].calls[c].kid
  {
    if n > 0 {
      RunInv(states, events, n - 1);
      RememberStep(states[n - 1], events[n - 1], states[n], c);
      if Remembered(states[n].calls[c].pc) == Remembered(states[n - 1].calls[c].pc) {
        RememberedWasLookedUp(states, events, n - 1, c);
      }
    }
  }

  lemma SawStaleStep(s: State, e: Event, s': State, c: CallId)
    requires Next(s, e) == Some(s') && c in s'.calls && SawStale(s'.calls[c].pc)
    ensures Live(s, c) && (SawStale(s.calls[c].pc) || Stale(s))
  {
    if e.Step? && e.c != c {
      OthersUntouched(s, e.c, s', c);
    }
  }

  lemma {:induction false} StaleWasSeen(states: seq<State>, events: seq<Event>, n: nat, c: CallId)
    requires IsRun(states, events) && n < |states|
    requires c in states[n].calls && SawStale(states[n].calls[c].pc)
    ensures exists j :: 0 <= j < n && Live(states[j], c) && Stale(states[j])
  {
    if n > 0 {
      SawStaleStep(states[n - 1], events[n - 1], states[n], c);
      if SawStale(states[n - 1].calls[c].pc) {
        StaleWasSeen(states, events, n - 1, c);
      }
    }
  }

  /** What a call knows when it refuses. */
  predicate Refusal(pc: Pc, answer: KeyResult) {
    || (answer.UnknownKeyID? && Remembered(pc) == Some(None))
    || (answer.LoadError? && Remembered(pc) == Some(None) && RefreshDenied(pc))
    || (answer.StaleKeys? && Remembered(pc).Some? && Remembered(pc).value.Some? && RefreshDenied(pc))
  }

  lemma KeyRefuses(s: State, c: CallId, s': State, answer: KeyResult)
    requires c in s.calls && StepKey(s, c) == Some(s') && Returned(s', c, answer) && !answer.Found?
    ensures Refusal(s.calls[c].pc, answer)
  {
  }

  lemma RefreshRefuses(s: State, c: CallId, s': State, answer: KeyResult)
    requires c in s.calls && StepRefresh(s, c) == Some(s') && Returned(s', c, answer)
    ensures Refusal(s.calls[c].pc, answer)
  {
  }

  lemma RefusedStep(s: State, e: Event, s': State, c: CallId, answer: KeyResult)
    requires Next(s, e) == Some(s') && Returned(s', c, answer) && !answer.Found? && !Returned(s, c, answer)
    ensures c in s.calls && s'.calls[c].kid == s.calls[c].kid && Refusal(s.calls[c].pc, answer)
  {
    NewReply(s, e, s', c, answer);
    StepMoves(s, c, s');
    if InKey(s.calls[c].pc) {
      KeyRefuses(s, c, s', answer);
    } else if InStore(s.calls[c].pc) {
      StoreReturnsNothing(s, c, s');
    } else {
      RefreshRefuses(s, c, s', answer);
    }
  }

  /** No refusal is arbitrary: the ID was missing from (ErrStaleKeys: present in) a complete key set
      at an instant inside the call, and the cache was stale at an instant inside every call that
      reports stale keys or a failed load. */
  lemma {:induction false} RefusalIsJustified(states: seq<State>, events: seq<Event>, n: nat, c: CallId,
                                              answer: KeyResult)
    requires IsRun(states, events) && n < |states| && Returned(states[n], c, answer) && !answer.Found?
    ensures exists j :: 0 <= j < n && Live(states[j], c) && !MidStore(states[j])
                        && (states[n].calls[c].kid in states[j].cache.keys <==> answer.StaleKeys?)
    ensures !answer.UnknownKeyID? ==> exists j :: 0 <= j < n && Live(states[j], c) && Stale(states[j])
  {
    if n > 0 {
      if Returned(states[n - 1], c, answer) {
        NextKeepsCalls(states[n - 1], events[n - 1], states[n], c);
        RefusalIsJustified(states, events, n - 1, c, answer);
      } else {
        RefusedStep(states[n - 1], events[n - 1], states[n], c, answer);
        RememberedWasLookedUp(states, events, n - 1, c);
        if !answer.UnknownKeyID? {
          StaleWasSeen(states, events, n - 1, c);
        }
      }
    }
  }
}
