/** What every step of the key cache keeps. */
module KeyCacheInvariant {
  import opened Common
  import opened KeySet
  import opened KeyCache

  predicate HoldsRefresh(pc: Pc) {
    pc.Locked? || pc.Rechecking? || pc.RecheckedFresh? || pc.Rechecked? || pc.LoadReady? || InFlight(pc)
    || pc.WroteAttempted? || pc.WroteKeys? || pc.Written? || pc.Unlocking?
  }

  predicate HoldsRead(pc: Pc) {
    pc.Reading? || pc.ReadKey? || pc.ReadFresh? || pc.Rechecking? || pc.RecheckedFresh? || pc.Rechecked?
    || pc.Rereading? || pc.Reread?
  }

  /** Inside the write section. */
  predicate Writes(pc: Pc) {
    pc.Writing? || pc.WroteAttempted? || pc.WroteKeys? || pc.Written?
  }

  predicate HoldsWrite(pc: Pc) {
    pc.Announced? || Writes(pc)
  }

  /** A load has begun and its attempt is not yet on record. */
  predicate InFlight(pc: Pc) {
    pc.Loading? || pc.Loaded? || pc.Announced? || pc.Writing?
  }

  ghost predicate CallLocks(s: State, c: CallId, pc: Pc) {
    && (HoldsRefresh(pc) <==> s.refreshMu == Some(c))
    && (HoldsRead(pc) <==> c in s.readers)
    && (HoldsWrite(pc) <==> s.writer == Some(c))
    && (Writes(pc) ==> s.readers == {})
  }

  /** The lock words say exactly which calls are inside which sections. */
  ghost predicate Locks(s: State) {
    && (s.refreshMu.Some? ==> s.refreshMu.value in s.calls)
    && (s.writer.Some? ==> s.writer.value in s.calls)
    && s.readers <= s.calls.Keys
    && forall c :: c in s.calls ==> CallLocks(s, c, s.calls[c].pc)
  }

  predicate Stale(s: State) {
    !CacheFresh(s.cache, s.now)
  }

  predicate Cool(s: State) {
    !Cooling(s.cache, s.now)
  }

  /** What the local variables of a call still say about the shared cache. */
  ghost predicate CallData(s: State, call: Call) {
    var pc := call.pc;
    && (pc.ReadKey? || pc.ReadFresh? ==> pc.hit == Lookup(s.cache.keys, call.kid))
    && (pc.RecheckedFresh? || pc.Rechecked? ==> pc.isFresh || Stale(s))
    && (pc.Rechecked? ==> pc.isCooling || Cool(s))
    && (pc.LoadReady? ==> Stale(s) && Cool(s))
    && (InFlight(pc) || pc.WroteAttempted? || pc.WroteKeys? ==> Stale(s))
    && (pc.WroteKeys? ==> pc.outcome == LoadOk(s.cache.keys))
    && (pc.Reread? ==> pc.found == Lookup(s.cache.keys, call.kid))
  }

  ghost predicate Data(s: State) {
    && (s.cache.fetched.Some? ==> s.cache.fetched.value <= s.now)
    && (s.cache.attempted.Some? ==> s.cache.attempted.value <= s.now)
    && forall c :: c in s.calls ==> CallData(s, s.calls[c])
  }

  /** Where the call that holds refreshMu stands, if there is one. */
  function HolderPc(s: State): Option<Pc> {
    if s.refreshMu.Some? && s.refreshMu.value in s.calls then Some(s.calls[s.refreshMu.value].pc) else None
  }

  predicate LoadInFlight(s: State) {
    HolderPc(s).Some? && InFlight(HolderPc(s).value)
  }

  /** Between the assignments to v.keys and v.fetched. */
  predicate MidStore(s: State) {
    HolderPc(s).Some? && HolderPc(s).value.WroteKeys?
  }

  ghost predicate Spaced(starts: seq<int>) {
    forall i :: 0 <= i < |starts| - 1 ==> starts[i] + REFRESH_COOLDOWN <= starts[i + 1]
  }

  ghost predicate StartLog(s: State) {
    && Spaced(s.starts)
    && (s.starts != [] ==> s.starts[|s.starts| - 1] <= s.now)
    && (s.starts != [] && !LoadInFlight(s) ==>
          s.cache.attempted.Some? && s.starts[|s.starts| - 1] <= s.cache.attempted.value)
  }

  /** The keys are wholly those of the latest successful load. */
  ghost predicate StoreLog(s: State) {
    if s.stores == [] then
      s.cache.fetched == None && (!MidStore(s) ==> s.cache.keys == map[])
    else
      var last := s.stores[|s.stores| - 1];
      s.cache.fetched == Some(last.at) && (!MidStore(s) ==> s.cache.keys == last.keys)
  }

  ghost predicate Inv(s: State) {
    Locks(s) && Data(s) && StartLog(s) && StoreLog(s)
  }

  lemma InitInv(now: int)
    ensures Inv(Init(now))
  {
  }

  /** A step of call `c` leaves every other call's hold on the locks alone. */
  predicate SameForOthers(s: State, s': State, c: CallId) {
    && s'.readers - {c} == s.readers - {c}
    && (s'.refreshMu == s.refreshMu || s.refreshMu == Some(c) || (s.refreshMu == None && s'.refreshMu == Some(c)))
    && (s'.refreshMu == s.refreshMu || s'.refreshMu == None || s'.refreshMu == Some(c))
    && (s'.writer == s.writer || s.writer == Some(c) || s.writer == None)
    && (s'.writer == s.writer || s'.writer == None || s'.writer == Some(c))
  }

  lemma KeyMoves(s: State, c: CallId, s': State)
    requires c in s.calls && StepKey(s, c) == Some(s')
    ensures c in s'.calls && s'.calls == s.calls[c := Call(s.calls[c].kid, s'.calls[c].pc)]
  {
  }

  lemma RefreshMoves(s: State, c: CallId, s': State)
    requires c in s.calls && StepRefresh(s, c) == Some(s')
    ensures c in s'.calls && s'.calls == s.calls[c := Call(s.calls[c].kid, s'.calls[c].pc)]
  {
  }

  lemma StoreMoves(s: State, c: CallId, s': State)
    requires c in s.calls && StepStore(s, c) == Some(s')
    ensures c in s'.calls && s'.calls == s.calls[c := Call(s.calls[c].kid, s'.calls[c].pc)]
  {
  }

  /** A step moves its own call, which keeps its key ID, and no other. */
  lemma StepMoves(s: State, c: CallId, s': State)
    requires c in s.calls && StepCall(s, c) == Some(s')
    ensures c in s'.calls && s'.calls == s.calls[c := Call(s.calls[c].kid, s'.calls[c].pc)]
  {
    var pc := s.calls[c].pc;
    if InKey(pc) {
      KeyMoves(s, c, s');
    } else if InStore(pc) {
      StoreMoves(s, c, s');
    } else {
      RefreshMoves(s, c, s');
    }
  }

  lemma KeyTouchesOwnLocks(s: State, c: CallId, s': State)
    requires c in s.calls && CallLocks(s, c, s.calls[c].pc) && StepKey(s, c) == Some(s')
    ensures SameForOthers(s, s', c) && CallLocks(s', c, s'.calls[c].pc)
    ensures s'.readers <= s.readers || s.writer == None
  {
  }

  lemma RefreshTouchesOwnLocks(s: State, c: CallId, s': State)
    requires c in s.calls && CallLocks(s, c, s.calls[c].pc) && StepRefresh(s, c) == Some(s')
    ensures SameForOthers(s, s', c) && CallLocks(s', c, s'.calls[c].pc)
    ensures s'.readers <= s.readers || s.writer == None
  {
  }

  lemma StoreTouchesOwnLocks(s: State, c: CallId, s': State)
    requires c in s.calls && CallLocks(s, c, s.calls[c].pc) && StepStore(s, c) == Some(s')
    ensures SameForOthers(s, s', c) && CallLocks(s', c, s'.calls[c].pc)
    ensures s'.readers <= s.readers || s.writer == None
  {
  }

  lemma StepTouchesOwnLocks(s: State, c: CallId, s': State)
    requires c in s.calls && CallLocks(s, c, s.calls[c].pc) && StepCall(s, c) == Some(s')
    ensures SameForOthers(s, s', c) && c in s'.calls && CallLocks(s', c, s'.calls[c].pc)
    ensures s'.readers <= s.readers || s.writer == None
  {
    StepMoves(s, c, s');
    var pc := s.calls[c].pc;
    if InKey(pc) {
      KeyTouchesOwnLocks(s, c, s');
    } else if InStore(pc) {
      StoreTouchesOwnLocks(s, c, s');
    } else {
      RefreshTouchesOwnLocks(s, c, s');
    }
  }

  lemma OthersLocks(s: State, c: CallId, s': State, d: CallId, pc: Pc)
    requires SameForOthers(s, s', c) && c != d && CallLocks(s, d, pc)
    requires s'.readers <= s.readers || s.writer == None
    ensures CallLocks(s', d, pc)
  {
    assert d in s'.readers <==> d in s'.readers - {c};
  }

  lemma StepKeepsLocks(s: State, c: CallId, s': State)
    requires Locks(s) && c in s.calls && StepCall(s, c) == Some(s')
    ensures Locks(s')
  {
    StepMoves(s, c, s');
    StepTouchesOwnLocks(s, c, s');
    forall d | d in s'.calls ensures CallLocks(s', d, s'.calls[d].pc) {
      if d != c {
        OthersLocks(s, c, s', d, s.calls[d].pc);
      }
    }
    assert forall d :: d in s'.readers && d != c ==> d in s'.readers - {c};
  }

  lemma LocksKept(s: State, e: Event, s': State)
    requires Locks(s) && Next(s, e) == Some(s')
    ensures Locks(s')
  {
    if e.Step? {
      StepKeepsLocks(s, e.c, s');
    }
  }

  lemma KeyData(s: State, c: CallId, s': State)
    requires c in s.calls && CallData(s, s.calls[c]) && StepKey(s, c) == Some(s')
    ensures s'.cache == s.cache && s'.now == s.now && CallData(s', s'.calls[c])
    ensures s'.starts == s.starts && s'.stores == s.stores && s'.refreshMu == s.refreshMu
  {
    assert CallData(s, s.calls[c]);
  }

  lemma RefreshData(s: State, c: CallId, s': State)
    requires c in s.calls && CallData(s, s.calls[c]) && StepRefresh(s, c) == Some(s')
    ensures s'.cache == s.cache && s'.now == s.now && CallData(s', s'.calls[c])
  {
    assert CallData(s, s.calls[c]);
  }

  lemma StoreData(s: State, c: CallId, s': State)
    requires c in s.calls && CallData(s, s.calls[c]) && StepStore(s, c) == Some(s')
    ensures CallData(s', s'.calls[c])
    ensures s'.now == s.now
    ensures s'.cache == s.cache || Writes(s.calls[c].pc)
  {
    assert CallData(s, s.calls[c]);
  }

  /** While `c` writes, no other call relies on the cache. */
  lemma WriterIsAlone(s: State, c: CallId, d: CallId)
    requires Locks(s) && c in s.calls && d in s.calls && c != d && Writes(s.calls[c].pc)
    ensures !HoldsRead(s.calls[d].pc) && !HoldsRefresh(s.calls[d].pc)
  {
    assert CallLocks(s, c, s.calls[c].pc) && CallLocks(s, d, s.calls[d].pc);
  }

  lemma StepData(s: State, c: CallId, s': State)
    requires c in s.calls && CallData(s, s.calls[c]) && StepCall(s, c) == Some(s')
    ensures s'.calls.Keys == s.calls.Keys && CallData(s', s'.calls[c]) && s'.now == s.now
    ensures s'.cache == s.cache || Writes(s.calls[c].pc)
    ensures s'.cache.fetched in {s.cache.fetched, Some(s.now)}
    ensures s'.cache.attempted in {s.cache.attempted, Some(s.now)}
  {
    var pc := s.calls[c].pc;
    if InKey(pc) {
      KeyData(s, c, s');
    } else if InStore(pc) {
      StoreData(s, c, s');
    } else {
      RefreshData(s, c, s');
    }
  }

  /** What the locals of a call say stays true when another call steps. */
  lemma OthersData(s: State, c: CallId, s': State, d: CallId)
    requires Locks(s) && c in s.calls && d in s.calls && c != d
    requires CallData(s, s.calls[c]) && CallData(s, s.calls[d]) && StepCall(s, c) == Some(s')
    ensures d in s'.calls && CallData(s', s'.calls[d])
  {
    StepData(s, c, s');
    if Writes(s.calls[c].pc) {
      WriterIsAlone(s, c, d);
    }
  }

  lemma ClockData(s: State, to: int, call: Call)
    requires s.now <= to && CallData(s, call)
    ensures CallData(s.(now := to), call)
  {
  }

  lemma TickKeepsData(s: State, to: int)
    requires Data(s) && s.now <= to
    ensures Data(s.(now := to))
  {
    forall c | c in s.calls ensures CallData(s.(now := to), s.calls[c]) {
      ClockData(s, to, s.calls[c]);
    }
  }

  lemma MoveKeepsData(s: State, c: CallId, call: Call)
    requires Data(s) && CallData(s, call)
    ensures Data(s.(calls := s.calls[c := call]))
  {
    var s' := s.(calls := s.calls[c := call]);
    forall d | d in s'.calls ensures CallData(s', s'.calls[d]) {
      assert d != c ==> CallData(s, s.calls[d]);
    }
  }

  lemma StepKeepsData(s: State, c: CallId, s': State)
    requires Locks(s) && Data(s) && c in s.calls && StepCall(s, c) == Some(s')
    ensures Data(s')
  {
    StepData(s, c, s');
    forall d | d in s'.calls ensures CallData(s', s'.calls[d]) {
      if d != c {
        OthersData(s, c, s', d);
      }
    }
  }

  lemma DataKept(s: State, e: Event, s': State)
    requires Locks(s) && Data(s) && Next(s, e) == Some(s')
    ensures Data(s')
  {
    match e
    case Tick(to) => TickKeepsData(s, to);
    case Invoke(c, kid) => MoveKeepsData(s, c, Call(kid, Invoked));
    case LoadEnds(c, outcome) =>
      assert CallData(s, s.calls[c]);
      MoveKeepsData(s, c, Call(s.calls[c].kid, Loaded(s.calls[c].pc.hit, outcome)));
    case Step(c) => StepKeepsData(s, c, s');
  }

  lemma KeyLogs(s: State, c: CallId, s': State)
    requires Inv(s) && c in s.calls && StepKey(s, c) == Some(s')
    ensures StartLog(s') && StoreLog(s')
  {
    assert CallLocks(s, c, s.calls[c].pc);
    KeyData(s, c, s');
  }

  /** The log of starts, when `refresh` steps outside its write section. */
  lemma RefreshStarts(s: State, c: CallId, s': State)
    requires StartLog(s) && c in s.calls && CallLocks(s, c, s.calls[c].pc) && CallData(s, s.calls[c])
    requires s.refreshMu.Some? ==> s.refreshMu.value in s.calls
    requires StepRefresh(s, c) == Some(s')
    ensures StartLog(s')
  {
  }

  lemma RefreshStores(s: State, c: CallId, s': State)
    requires StoreLog(s) && c in s.calls && CallLocks(s, c, s.calls[c].pc)
    requires s.refreshMu.Some? ==> s.refreshMu.value in s.calls
    requires StepRefresh(s, c) == Some(s')
    ensures StoreLog(s')
  {
  }

  lemma RefreshLogs(s: State, c: CallId, s': State)
    requires Inv(s) && c in s.calls && StepRefresh(s, c) == Some(s')
    ensures StartLog(s') && StoreLog(s')
  {
    RefreshStarts(s, c, s');
    RefreshStores(s, c, s');
  }

  lemma StoreLogs(s: State, c: CallId, s': State)
    requires Inv(s) && c in s.calls && StepStore(s, c) == Some(s')
    ensures StartLog(s') && StoreLog(s')
  {
    assert CallLocks(s, c, s.calls[c].pc);
    assert CallData(s, s.calls[c]);
  }

  lemma LogsKept(s: State, e: Event, s': State)
    requires Inv(s) && Next(s, e) == Some(s')
    ensures StartLog(s') && StoreLog(s')
  {
    match e
    case Tick(_) =>
    case Invoke(_, _) =>
    case LoadEnds(_, _) =>
    case Step(c) =>
      var pc := s.calls[c].pc;
      if InKey(pc) {
        KeyLogs(s, c, s');
      } else if InStore(pc) {
        StoreLogs(s, c, s');
      } else {
        RefreshLogs(s, c, s');
      }
  }

  /** Every event keeps the invariant. */
  lemma NextKeepsInv(s: State, e: Event, s': State)
    requires Inv(s) && Next(s, e) == Some(s')
    ensures Inv(s')
  {
    LocksKept(s, e, s');
    DataKept(s, e, s');
    LogsKept(s, e, s');
  }
}
