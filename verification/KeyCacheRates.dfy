/** How often the issuer is contacted, how long a key set lives, and that calls never get stuck. */
module KeyCacheRates {
  import opened Common
  import opened KeySet
  import opened KeyCache
  import opened KeyCacheInvariant
  import opened KeyCacheTheorems

  // ---------------------------------------------------------------- a stored set rules for a full TTL

  lemma FreshStep(s: State, e: Event, s': State)
    requires Inv(s) && Next(s, e) == Some(s') && CacheFresh(s.cache, s.now)
    ensures s'.cache == s.cache && s'.starts == s.starts && s'.stores == s.stores
  {
    if e.Step? {
      assert CallData(s, s.calls[e.c]);
    }
  }

  /** From a store at time f until f + TTL nothing changes: no load starts, no store, same keys. */
  lemma {:induction false} FreshWindow(states: seq<State>, events: seq<Event>, i: nat, n: nat, f: int)
    requires IsRun(states, events) && i <= n < |states|
    requires states[i].cache.fetched == Some(f) && states[n].now < f + KEY_CACHE_TTL
    ensures states[n].cache == states[i].cache
    ensures states[n].starts == states[i].starts && states[n].stores == states[i].stores
  {
    if i < n {
      ClockMoves(states[n - 1], events[n - 1], states[n]);
      FreshWindow(states, events, i, n - 1, f);
      RunInv(states, events, n - 1);
      FreshStep(states[n - 1], events[n - 1], states[n]);
    }
  }

  lemma ClockMoves(s: State, e: Event, s': State)
    requires Next(s, e) == Some(s')
    ensures s.now <= s'.now
  {
  }

  /** A call whose first freshness test falls inside the window answers by lookup in that set,
      and goes nowhere near the issuer. */
  lemma {:induction false} FreshWindowCall(states: seq<State>, events: seq<Event>, i: nat, j: nat, n: nat,
                                           f: int, c: CallId)
    requires IsRun(states, events) && i <= j < n < |states|
    requires states[i].cache.fetched == Some(f) && states[j].now < f + KEY_CACHE_TTL
    requires c in states[j].calls && states[j].calls[c].pc.ReadKey? && events[j] == Step(c)
    ensures c in states[n].calls
    ensures var hit := Lookup(states[i].cache.keys, states[j].calls[c].kid);
            states[n].calls[c].pc in {ReadFresh(hit, true), Done(AfterReread(hit))}
  {
    if n == j + 1 {
      FreshWindow(states, events, i, j, f);
      RunInv(states, events, j);
      assert CallData(states[j], states[j].calls[c]);
    } else {
      FreshWindowCall(states, events, i, j, n - 1, f, c);
      var e := events[n - 1];
      if e.Step? && e.c != c {
        OthersUntouched(states[n - 1], e.c, states[n], c);
      }
    }
  }

  // ---------------------------------------------------------------- revocation

  lemma StoresGrow(s: State, e: Event, s': State)
    requires Next(s, e) == Some(s')
    ensures s.stores <= s'.stores && s.now <= s'.now
  {
  }

  lemma {:induction false} RunGrows(states: seq<State>, events: seq<Event>, i: nat, n: nat, c: CallId)
    requires IsRun(states, events) && i <= n < |states|
    ensures states[i].stores <= states[n].stores && states[i].now <= states[n].now
    ensures c in states[i].calls ==> c in states[n].calls && states[i].calls[c].kid == states[n].calls[c].kid
  {
    if i < n {
      RunGrows(states, events, i, n - 1, c);
      StoresGrow(states[n - 1], events[n - 1], states[n]);
      if c in states[n - 1].calls {
        NextKeepsCalls(states[n - 1], events[n - 1], states[n], c);
      }
    }
  }

  /** At an instant of freshness the keys are wholly those of the latest successful load. */
  lemma FreshKeysAreLatestLoad(s: State)
    requires Inv(s) && CacheFresh(s.cache, s.now)
    ensures s.stores != [] && s.cache.keys == s.stores[|s.stores| - 1].keys
    ensures s.cache.fetched == Some(s.stores[|s.stores| - 1].at)
  {
    assert s.refreshMu.Some? ==> CallData(s, s.calls[s.refreshMu.value]);
  }

  /** A key returned by a call that begins after state i comes from the load that was the latest then
      or from a later one, and that load was less than a TTL old when the call began, or began later.
      So an ID missing from those loads is never accepted again, and the age of a key at its return
      exceeds the TTL by less than the duration of the call. */
  lemma AnswersComeFromRecentLoads(states: seq<State>, events: seq<Event>, i: nat, n: nat, c: CallId, key: PublicKey)
    requires IsRun(states, events) && i < n < |states|
    requires c !in states[i].calls && Returned(states[n], c, Found(key))
    ensures exists m :: 0 <= m < |states[n].stores| && |states[i].stores| - 1 <= m
                        && states[i].now < states[n].stores[m].at + KEY_CACHE_TTL
                        && Lookup(states[n].stores[m].keys, states[n].calls[c].kid) == Some(key)
  {
    ReturnedKeyWasFresh(states, events, n, c, key);
    var j :| 0 <= j < n && Live(states[j], c) && CacheFresh(states[j].cache, states[j].now)
             && Lookup(states[j].cache.keys, states[n].calls[c].kid) == Some(key);
    if j < i {
      RunGrows(states, events, j, i, c);
    }
    RunGrows(states, events, i, j, c);
    RunGrows(states, events, j, n, c);
    RunInv(states, events, j);
    FreshKeysAreLatestLoad(states[j]);
    assert states[n].stores[|states[j].stores| - 1] == states[j].stores[|states[j].stores| - 1];
  }

  /** A failed load changes neither the keys nor the fetch time. */
  lemma FailedLoadKeepsKeys(s: State, e: Event, s': State)
    requires Inv(s) && Next(s, e) == Some(s')
    requires s'.cache.keys != s.cache.keys || s'.cache.fetched != s.cache.fetched
    ensures e.Step? && e.c in s.calls && s.refreshMu == s.writer == Some(e.c) && s.readers == {}
    ensures (s.calls[e.c].pc.WroteAttempted? || s.calls[e.c].pc.WroteKeys?) && s.calls[e.c].pc.outcome.LoadOk?
  {
    assert e.Step?;
    assert CallLocks(s, e.c, s.calls[e.c].pc);
    assert CallData(s, s.calls[e.c]);
  }

  // ---------------------------------------------------------------- load rate

  /** The i-th event is the start of a load. */
  predicate IsLoadStart(s: State, e: Event) {
    e.Step? && e.c in s.calls && s.calls[e.c].pc.LoadReady?
  }

  /** A load starts only after the TTL of the last stored set and after the cooldown of the last attempt. */
  lemma LoadStartIsDue(s: State, e: Event)
    requires Inv(s) && IsLoadStart(s, e)
    ensures s.cache.fetched.Some? ==> s.cache.fetched.value + KEY_CACHE_TTL <= s.now
    ensures s.cache.attempted.Some? ==> s.cache.attempted.value + REFRESH_COOLDOWN <= s.now
    ensures s.starts != [] ==> s.starts[|s.starts| - 1] + REFRESH_COOLDOWN <= s.now
  {
    assert CallData(s, s.calls[e.c]) && CallLocks(s, e.c, s.calls[e.c].pc);
  }

  /** The load starts among the first n events that fall within [a, b]. */
  ghost function LoadStarts(states: seq<State>, events: seq<Event>, n: nat, a: int, b: int): nat
    requires IsRun(states, events) && n < |states|
  {
    if n == 0 then 0
    else LoadStarts(states, events, n - 1, a, b)
         + if IsLoadStart(states[n - 1], events[n - 1]) && a <= states[n - 1].now <= b then 1 else 0
  }

  function CountIn(starts: seq<int>, a: int, b: int): nat {
    if starts == [] then 0
    else CountIn(starts[..|starts| - 1], a, b) + if a <= starts[|starts| - 1] <= b then 1 else 0
  }

  lemma {:induction false} LoadStartsAreLogged(states: seq<State>, events: seq<Event>, n: nat, a: int, b: int)
    requires IsRun(states, events) && n < |states|
    ensures LoadStarts(states, events, n, a, b) == CountIn(states[n].starts, a, b)
  {
    if n > 0 {
      LoadStartsAreLogged(states, events, n - 1, a, b);
      StartsStep(states[n - 1], events[n - 1], states[n]);
      var before, after := states[n - 1].starts, states[n].starts;
      if before != after {
        assert after[..|after| - 1] == before;
      }
    }
  }

  lemma StartsStep(s: State, e: Event, s': State)
    requires Next(s, e) == Some(s')
    ensures s'.starts == if IsLoadStart(s, e) then s.starts + [s.now] else s.starts
  {
  }

  lemma {:induction false} SpacedIsSorted(starts: seq<int>, i: nat, j: nat)
    requires Spaced(starts) && i < j < |starts|
    ensures starts[i] + REFRESH_COOLDOWN <= starts[j]
    decreases j
  {
    if i + 1 < j {
      SpacedIsSorted(starts, i, j - 1);
    }
    assert starts[j - 1] + REFRESH_COOLDOWN <= starts[j - 1 + 1];
  }

  lemma {:induction false} CountInSameBelow(starts: seq<int>, a: int, b: int, b': int)
    requires forall i :: 0 <= i < |starts| ==> starts[i] <= b && starts[i] <= b'
    ensures CountIn(starts, a, b) == CountIn(starts, a, b')
  {
    if starts != [] {
      CountInSameBelow(starts[..|starts| - 1], a, b, b');
    }
  }

  lemma OneCooldownMore(w: int)
    ensures (w - REFRESH_COOLDOWN) / REFRESH_COOLDOWN + 1 == w / REFRESH_COOLDOWN
    ensures w >= 0 ==> w / REFRESH_COOLDOWN >= 0
  {
  }

  lemma {:induction false} SpacedCount(starts: seq<int>, a: int, b: int)
    requires Spaced(starts)
    ensures CountIn(starts, a, b) <= if b < a then 0 else (b - a) / REFRESH_COOLDOWN + 1
  {
    if starts != [] {
      var last := starts[|starts| - 1];
      var rest := starts[..|starts| - 1];
      if a <= last <= b {
        forall i | 0 <= i < |rest| ensures rest[i] <= last - REFRESH_COOLDOWN {
          SpacedIsSorted(starts, i, |starts| - 1);
        }
        CountInSameBelow(rest, a, b, last - REFRESH_COOLDOWN);
        SpacedCount(rest, a, last - REFRESH_COOLDOWN);
        OneCooldownMore(last - a);
      } else {
        SpacedCount(rest, a, b);
      }
    }
  }

  /** Whatever callers and key IDs arrive, a window of length w contains at most w/cooldown + 1 load starts. */
  lemma LoadRate(states: seq<State>, events: seq<Event>, n: nat, a: int, w: nat)
    requires IsRun(states, events) && n < |states|
    ensures LoadStarts(states, events, n, a, a + w) <= w / REFRESH_COOLDOWN + 1 == w / 60_000_000_000 + 1
  {
    RunInv(states, events, n);
    LoadStartsAreLogged(states, events, n, a, a + w);
    SpacedCount(states[n].starts, a, a + w);
  }

  // ---------------------------------------------------------------- no deadlock, bounded work

  /** At most one load is in flight, and the loading call does not hold v.mu. */
  lemma LoadsAreAlone(s: State, c: CallId, d: CallId)
    requires Inv(s) && c in s.calls && d in s.calls && s.calls[c].pc.Loading? && s.calls[d].pc.Loading?
    ensures c == d && c !in s.readers && s.writer == None
  {
    assert CallLocks(s, c, s.calls[c].pc) && CallLocks(s, d, s.calls[d].pc);
    assert s.writer.Some? ==> CallLocks(s, s.writer.value, s.calls[s.writer.value].pc);
  }

  predicate Moves(s: State, e: Event) {
    (e.Step? || e.LoadEnds?) && Live(s, e.c) && Next(s, e).Some?
  }

  /** Some event of the call that has announced its write, or of a reader it waits for. */
  lemma WriterMoves(s: State, c: CallId) returns (e: Event)
    requires Inv(s) && c in s.calls && HoldsWrite(s.calls[c].pc)
    ensures Moves(s, e)
  {
    e := Step(c);
    if s.calls[c].pc.Announced? && s.readers != {} {
      var r :| r in s.readers;
      assert CallLocks(s, r, s.calls[r].pc);
      e := Step(r);
    }
  }

  lemma RefresherMoves(s: State, c: CallId) returns (e: Event)
    requires Inv(s) && c in s.calls && HoldsRefresh(s.calls[c].pc)
    ensures Moves(s, e)
  {
    var pc := s.calls[c].pc;
    assert CallLocks(s, c, pc);
    assert s.writer.Some? ==> CallLocks(s, s.writer.value, s.calls[s.writer.value].pc);
    if HoldsWrite(pc) {
      e := WriterMoves(s, c);
    } else {
      e := if pc.Loading? then LoadEnds(c, LoadFailed("")) else Step(c);
    }
  }

  /** While a call is unfinished, some unfinished call can move (given that loads return). */
  lemma NoDeadlock(s: State, c: CallId) returns (e: Event)
    requires Inv(s) && Live(s, c)
    ensures Moves(s, e)
  {
    var pc := s.calls[c].pc;
    if s.writer.Some? {
      assert CallLocks(s, s.writer.value, s.calls[s.writer.value].pc);
      e := WriterMoves(s, s.writer.value);
    } else if s.refreshMu.Some? {
      assert CallLocks(s, s.refreshMu.value, s.calls[s.refreshMu.value].pc);
      e := RefresherMoves(s, s.refreshMu.value);
    } else {
      assert CallLocks(s, c, pc);
      e := Step(c);
    }
  }

  /** The own events a call has left at most. */
  function Rank(pc: Pc): nat {
    match pc
    case Invoked => 21
    case Reading => 20
    case ReadKey(_) => 19
    case ReadFresh(_, _) => 18
    case Refreshing(_) => 17
    case Locked(_) => 16
    case Rechecking(_) => 15
    case RecheckedFresh(_, _) => 14
    case Rechecked(_, _, _) => 13
    case LoadReady(_) => 12
    case Loading(_) => 11
    case Loaded(_, _) => 10
    case Announced(_, _) => 9
    case Writing(_, _) => 8
    case WroteAttempted(_, _) => 7
    case WroteKeys(_, _) => 6
    case Written(_, _) => 5
    case Unlocking(_, _) => 4
    case RereadReady => 3
    case Rereading => 2
    case Reread(_) => 1
    case Done(_) => 0
  }

  predicate Own(e: Event, c: CallId) {
    (e.Step? || e.LoadEnds?) && e.c == c
  }

  function OwnEvents(events: seq<Event>, n: nat, c: CallId): nat
    requires n <= |events|
  {
    if n == 0 then 0 else OwnEvents(events, n - 1, c) + if Own(events[n - 1], c) then 1 else 0
  }

  lemma KeyRank(s: State, c: CallId, s': State)
    requires c in s.calls && StepKey(s, c) == Some(s') && c in s'.calls
    ensures Rank(s'.calls[c].pc) < Rank(s.calls[c].pc)
  {
  }

  lemma RefreshRank(s: State, c: CallId, s': State)
    requires c in s.calls && StepRefresh(s, c) == Some(s') && c in s'.calls
    ensures Rank(s'.calls[c].pc) < Rank(s.calls[c].pc)
  {
  }

  lemma StoreRank(s: State, c: CallId, s': State)
    requires c in s.calls && StepStore(s, c) == Some(s') && c in s'.calls
    ensures Rank(s'.calls[c].pc) < Rank(s.calls[c].pc)
  {
  }

  lemma RankFalls(s: State, e: Event, s': State, c: CallId)
    requires Next(s, e) == Some(s') && c in s'.calls
    ensures c !in s.calls ==> Rank(s'.calls[c].pc) == 21 && !Own(e, c)
    ensures c in s.calls && Own(e, c) ==> Rank(s'.calls[c].pc) < Rank(s.calls[c].pc)
    ensures c in s.calls && !Own(e, c) ==> s'.calls[c] == s.calls[c]
  {
    if e.Step? {
      StepMoves(s, e.c, s');
      var pc := s.calls[e.c].pc;
      if InKey(pc) {
        KeyRank(s, e.c, s');
      } else if InStore(pc) {
        StoreRank(s, e.c, s');
      } else {
        RefreshRank(s, e.c, s');
      }
    }
  }

  /** No call takes more than 21 steps of its own, whatever the others do. */
  lemma {:induction false} CallsAreBounded(states: seq<State>, events: seq<Event>, n: nat, c: CallId)
    requires IsRun(states, events) && n < |states|
    ensures c in states[n].calls ==> OwnEvents(events, n, c) + Rank(states[n].calls[c].pc) <= 21
    ensures c !in states[n].calls ==> OwnEvents(events, n, c) == 0
  {
    if n > 0 {
      CallsAreBounded(states, events, n - 1, c);
      if c in states[n].calls {
        RankFalls(states[n - 1], events[n - 1], states[n], c);
      } else if c in states[n - 1].calls {
        NextKeepsCalls(states[n - 1], events[n - 1], states[n], c);
      }
    }
  }
}
