/** How old a key can be when it is returned. The second read section of `key` does not test freshness
    again, so a returned key can be older than the TTL; here is exactly when. */
module KeyCacheAge {
  import opened Common
  import opened KeySet
  import opened KeyCache
  import opened KeyCacheInvariant
  import opened KeyCacheTheorems
  import opened KeyCacheRates
  import V = Verifier

  function Max(a: int, b: int): int {
    if a < b then b else a
  }

  /** What a finished load will store, or has half stored. */
  function Pending(pc: Pc): Option<LoadOutcome> {
    if pc.Loaded? || pc.Announced? || pc.Writing? || pc.WroteAttempted? || pc.WroteKeys? then Some(pc.outcome) else None
  }

  /** The first instant at which a load may start when none is under way. */
  function Due(s: State): int {
    Max(s.now,
        Max(if s.cache.fetched.Some? then s.cache.fetched.value + KEY_CACHE_TTL else s.now,
            if s.cache.attempted.Some? then s.cache.attempted.value + REFRESH_COOLDOWN else s.now))
  }

  /** The first instant at which a key set that holds `kid` can be stored. */
  function NextStore(s: State, kid: string): int {
    var pc := HolderPc(s);
    if pc.Some? && pc.value.Loading? then s.now
    else if pc.None? || Pending(pc.value).None? then Due(s)
    else match Pending(pc.value).value
         case LoadOk(keys) => if kid in keys then s.now else s.now + KEY_CACHE_TTL
         case LoadFailed(_) => if InFlight(pc.value) then s.now + REFRESH_COOLDOWN else Due(s)
  }

  /** A call for `kid` that begins now answers with a key within its TTL as long as it returns before this. */
  function Deadline(s: State, kid: string): int {
    if CacheFresh(s.cache, s.now) && kid in s.cache.keys then s.cache.fetched.value + KEY_CACHE_TTL
    else NextStore(s, kid) + KEY_CACHE_TTL
  }

  // ---------------------------------------------------------------- one step

  /** A step of a call, as far as the deadline goes: the stores, and whether the deadline stays. */
  predicate Advances(s: State, s': State, kid: string) {
    && NextStore(s, kid) <= NextStore(s', kid)
    && (s'.stores == s.stores || s'.stores == s.stores + [Stored(s.now, s.cache.keys)])
    && (s'.stores != s.stores && kid in s.cache.keys ==> NextStore(s, kid) <= s.now)
  }

  lemma KeyAdvances(s: State, c: CallId, s': State, kid: string)
    requires c in s.calls && CallLocks(s, c, s.calls[c].pc) && StepKey(s, c) == Some(s')
    ensures Advances(s, s', kid) && Deadline(s', kid) == Deadline(s, kid)
  {
    KeyMoves(s, c, s');
    KeyFrame(s, c, s');
    assert HolderPc(s') == HolderPc(s);
  }

  lemma KeyFrame(s: State, c: CallId, s': State)
    requires c in s.calls && StepKey(s, c) == Some(s')
    ensures s'.cache == s.cache && s'.now == s.now && s'.stores == s.stores && s'.refreshMu == s.refreshMu
    ensures InKey(s.calls[c].pc)
  {
  }

  lemma RefreshAdvances(s: State, c: CallId, s': State, kid: string)
    requires c in s.calls && CallLocks(s, c, s.calls[c].pc) && CallData(s, s.calls[c]) && StepRefresh(s, c) == Some(s')
    ensures Advances(s, s', kid) && Deadline(s', kid) == Deadline(s, kid)
  {
  }

  lemma StoreAdvances(s: State, c: CallId, s': State, kid: string)
    requires c in s.calls && CallLocks(s, c, s.calls[c].pc) && CallData(s, s.calls[c]) && StepStore(s, c) == Some(s')
    requires s.cache.attempted.Some? ==> s.cache.attempted.value <= s.now
    ensures Advances(s, s', kid)
  {
  }

  lemma StoreKeepsDeadline(s: State, c: CallId, s': State, kid: string)
    requires c in s.calls && CallLocks(s, c, s.calls[c].pc) && CallData(s, s.calls[c]) && StepStore(s, c) == Some(s')
    requires s.cache.attempted.Some? ==> s.cache.attempted.value <= s.now
    ensures Deadline(s', kid) == Deadline(s, kid)
  {
  }

  lemma StepAdvances(s: State, c: CallId, s': State, kid: string)
    requires Inv(s) && c in s.calls && StepCall(s, c) == Some(s')
    ensures Advances(s, s', kid) && Deadline(s', kid) == Deadline(s, kid)
  {
    var pc := s.calls[c].pc;
    assert CallLocks(s, c, pc) && CallData(s, s.calls[c]);
    if InKey(pc) {
      KeyAdvances(s, c, s', kid);
    } else if InStore(pc) {
      StoreAdvances(s, c, s', kid);
      StoreKeepsDeadline(s, c, s', kid);
    } else {
      RefreshAdvances(s, c, s', kid);
    }
  }

  /** No event brings the next store of `kid` forward, and none stores the ID before it. */
  lemma NextAdvances(s: State, e: Event, s': State, kid: string)
    requires Inv(s) && Next(s, e) == Some(s')
    ensures Advances(s, s', kid)
  {
    match e
    case Tick(_) =>
    case Invoke(_, _) =>
    case LoadEnds(c, _) =>
      assert CallLocks(s, c, s.calls[c].pc);
    case Step(c) =>
      StepAdvances(s, c, s', kid);
  }

  // ---------------------------------------------------------------- before the deadline

  /** No key set that holds `kid` is stored too early. */
  lemma {:induction false} LaterStores(states: seq<State>, events: seq<Event>, i: nat, n: nat, m: nat, kid: string)
    requires IsRun(states, events) && i <= n < |states| && |states[i].stores| <= m < |states[n].stores|
    requires kid in states[n].stores[m].keys
    ensures NextStore(states[i], kid) <= states[n].stores[m].at
    decreases n - i
  {
    if i < n {
      RunInv(states, events, i);
      NextAdvances(states[i], events[i], states[i + 1], kid);
      RunGrows(states, events, i + 1, n, 0);
      if m < |states[i + 1].stores| {
        assert states[n].stores[m] == states[i + 1].stores[m];
      } else {
        LaterStores(states, events, i + 1, n, m, kid);
      }
    }
  }

  lemma FreshIsSettled(s: State, kid: string)
    requires Inv(s) && CacheFresh(s.cache, s.now)
    ensures s.cache.fetched.value + KEY_CACHE_TTL <= NextStore(s, kid)
  {
    assert s.refreshMu.Some? ==> CallData(s, s.calls[s.refreshMu.value]);
  }

  /** If the call has returned a key, the key comes from a load that is less than a TTL old now. */
  ghost predicate Young(s: State, c: CallId) {
    c in s.calls && s.calls[c].pc.Done? && s.calls[c].pc.answer.Found? ==>
      exists m :: 0 <= m < |s.stores| && s.now < s.stores[m].at + KEY_CACHE_TTL
                  && Lookup(s.stores[m].keys, s.calls[c].kid) == Some(s.calls[c].pc.answer.key)
  }

  /** In every run, a call that returns before the deadline of the state in which it began returns a young key. */
  lemma YoungBeforeDeadline(states: seq<State>, events: seq<Event>, i: nat, n: nat, c: CallId, key: PublicKey)
    requires IsRun(states, events) && i < n < |states|
    requires c !in states[i].calls && Returned(states[n], c, Found(key))
    requires states[n].now < Deadline(states[i], states[n].calls[c].kid)
    ensures Young(states[n], c)
  {
    var kid := states[n].calls[c].kid;
    AnswersComeFromRecentLoads(states, events, i, n, c, key);
    var m :| 0 <= m < |states[n].stores| && |states[i].stores| - 1 <= m
             && states[i].now < states[n].stores[m].at + KEY_CACHE_TTL
             && Lookup(states[n].stores[m].keys, kid) == Some(key);
    RunInv(states, events, i);
    RunGrows(states, events, i, n, c);
    if CacheFresh(states[i].cache, states[i].now) {
      FreshIsSettled(states[i], kid);
      FreshKeysAreLatestLoad(states[i]);
    }
    if m >= |states[i].stores| {
      LaterStores(states, events, i, n, m, kid);
    }
    assert states[n].now < states[n].stores[m].at + KEY_CACHE_TTL;
  }

  // ---------------------------------------------------------------- letting the other calls finish

  ghost function Pick(ids: set<CallId>): (c: CallId)
    requires ids != {}
    ensures c in ids
  {
    var c :| c in ids; c
  }

  /** The steps that the given calls have left together. */
  ghost function TotalRank(calls: map<CallId, Call>, ids: set<CallId>): nat
    requires ids <= calls.Keys
  {
    if ids == {} then 0 else Rank(calls[Pick(ids)].pc) + TotalRank(calls, ids - {Pick(ids)})
  }

  lemma {:induction false} TotalRankFalls(calls: map<CallId, Call>, calls': map<CallId, Call>,
                                          ids: set<CallId>, c: CallId)
    requires ids <= calls.Keys && ids <= calls'.Keys && c in calls && c in calls'
    requires forall d :: d in ids && d != c ==> calls'[d] == calls[d]
    ensures TotalRank(calls', ids)
            == TotalRank(calls, ids) + if c in ids then Rank(calls'[c].pc) - Rank(calls[c].pc) else 0
  {
    if ids != {} {
      TotalRankFalls(calls, calls', ids - {Pick(ids)}, c);
    }
  }

  /** No store is later than the last one, or than now. */
  ghost predicate InOrder(s: State) {
    forall m :: 0 <= m < |s.stores| ==> s.stores[m].at <= s.stores[|s.stores| - 1].at <= s.now
  }

  lemma NextKeepsOrder(s: State, e: Event, s': State)
    requires Inv(s) && InOrder(s) && Next(s, e) == Some(s')
    ensures InOrder(s')
  {
    StoresGrowByOne(s, e, s');
    ClockMoves(s, e, s');
  }

  lemma StoresGrowByOne(s: State, e: Event, s': State)
    requires Next(s, e) == Some(s')
    ensures s'.stores == s.stores || s'.stores == s.stores + [Stored(s.now, s.cache.keys)]
  {
  }

  lemma {:induction false} StoresInOrder(states: seq<State>, events: seq<Event>, n: nat)
    requires IsRun(states, events) && n < |states|
    ensures InOrder(states[n])
  {
    if n > 0 {
      RunInv(states, events, n - 1);
      StoresInOrder(states, events, n - 1);
      NextKeepsOrder(states[n - 1], events[n - 1], states[n]);
    }
  }

  /** A state from which `kid` can be shown old. */
  ghost predicate Sound(s: State, c: CallId) {
    Inv(s) && InOrder(s) && c !in s.calls
  }

  lemma LoadAdvances(s: State, c: CallId, keys: KeyMap, s': State, kid: string)
    requires c in s.calls && CallLocks(s, c, s.calls[c].pc) && CallData(s, s.calls[c])
    requires Next(s, LoadEnds(c, LoadOk(keys))) == Some(s') && kid in keys
    ensures Deadline(s', kid) == Deadline(s, kid) && s'.calls.Keys == s.calls.Keys && s'.now == s.now
  {
  }

  /** A load in flight can end with a set that holds `kid`. */
  function Kindly(e: Event, kid: string, key: PublicKey): Event {
    if e.LoadEnds? then LoadEnds(e.c, LoadOk(map[kid := key])) else e
  }

  lemma KindlyMoves(s: State, e: Event, c: CallId, kid: string, key: PublicKey, s': State)
    requires Inv(s) && Moves(s, e) && Next(s, Kindly(e, kid, key)) == Some(s')
    ensures s'.calls.Keys == s.calls.Keys && s'.now == s.now && Deadline(s', kid) == Deadline(s, kid)
  {
    if e.LoadEnds? {
      assert CallLocks(s, e.c, s.calls[e.c].pc) && CallData(s, s.calls[e.c]);
      LoadAdvances(s, e.c, map[kid := key], s', kid);
    } else {
      StepMoves(s, e.c, s');
      StepAdvances(s, e.c, s', kid);
      NextSameTime(s, e.c, s');
    }
  }

  lemma RankOfKindly(s: State, e: Event, s': State)
    requires Next(s, e) == Some(s') && (e.Step? || e.LoadEnds?) && s'.calls.Keys == s.calls.Keys
    ensures TotalRank(s'.calls, s'.calls.Keys) < TotalRank(s.calls, s.calls.Keys)
  {
    RankFalls(s, e, s', e.c);
    forall d | d in s.calls && d != e.c ensures s'.calls[d] == s.calls[d] {
      RankFalls(s, e, s', d);
    }
    TotalRankFalls(s.calls, s'.calls, s.calls.Keys, e.c);
  }

  /** One event of another call at the same instant that leaves the deadline alone. */
  lemma OneMore(s: State, c: CallId, d: CallId, kid: string, key: PublicKey) returns (e: Event, s': State)
    requires Sound(s, c) && Live(s, d)
    ensures Next(s, e) == Some(s') && s'.now == s.now && Sound(s', c) && Deadline(s', kid) == Deadline(s, kid)
    ensures TotalRank(s'.calls, s'.calls.Keys) < TotalRank(s.calls, s.calls.Keys)
  {
    var e0 := NoDeadlock(s, d);
    e := Kindly(e0, kid, key);
    s' := Next(s, e).value;
    KindlyMoves(s, e0, c, kid, key, s');
    NextKeepsInv(s, e, s');
    NextKeepsOrder(s, e, s');
    RankOfKindly(s, e, s');
  }

  lemma AllDoneIsQuiet(s: State)
    requires Locks(s) && forall d :: d in s.calls ==> s.calls[d].pc.Done?
    ensures V.Quiet(s)
  {
    assert s.refreshMu.Some? ==> CallLocks(s, s.refreshMu.value, s.calls[s.refreshMu.value].pc);
    assert s.writer.Some? ==> CallLocks(s, s.writer.value, s.calls[s.writer.value].pc);
    assert forall r :: r in s.readers ==> r in s.calls && (CallLocks(s, r, s.calls[r].pc) ==> HoldsRead(s.calls[r].pc));
  }

  /** All other calls can finish at once without moving the deadline. */
  lemma Drain(s0: State, before: seq<Event>, s: State, c: CallId, kid: string, key: PublicKey)
    returns (es: seq<Event>, s': State)
    requires V.Leads(s0, before, s) && Sound(s, c)
    ensures V.Leads(s0, es, s') && s'.now == s.now && Sound(s', c) && V.Quiet(s')
    ensures Deadline(s', kid) == Deadline(s, kid)
    decreases TotalRank(s.calls, s.calls.Keys)
  {
    if d :| d in s.calls && !s.calls[d].pc.Done? {
      var e, s1 := OneMore(s, c, d, kid, key);
      var es1, s2 := V.Advance(s0, before, s, e);
      es, s' := Drain(s0, es1, s2, c, kid, key);
    } else {
      AllDoneIsQuiet(s);
      es, s' := before, s;
    }
  }

  // ---------------------------------------------------------------- at the deadline and after it

  /** Every key set that was ever stored is at least a TTL old. */
  ghost predicate AllOld(s: State) {
    forall m :: 0 <= m < |s.stores| ==> s.stores[m].at + KEY_CACHE_TTL <= s.now
  }

  /** From s a run can reach `mid` at the instant `late`, when the call has not yet returned, and the very next
      step, to s', is the return of the call. */
  ghost predicate ReturnsAt(s: State, mid: State, s': State, c: CallId, late: int) {
    && (exists es :: V.Leads(s, es, mid))
    && mid.now == late && Live(mid, c) && Next(mid, Step(c)) == Some(s') && s'.calls[c].pc.Done?
  }

  /** A hit whose read lock is released late. */
  lemma LateHit(s: State, c: CallId, kid: string, late: int) returns (es: seq<Event>, mid: State, s': State)
    requires V.Quiet(s) && c !in s.calls && CacheFresh(s.cache, s.now) && kid in s.cache.keys && s.now <= late
    ensures V.Leads(s, es, mid) && mid.now == late && Live(mid, c) && Next(mid, Step(c)) == Some(s')
    ensures s'.now == late && s'.stores == s.stores
    ensures Returned(s', c, Found(s.cache.keys[kid])) && s'.calls[c].kid == kid
  {
    es, mid := V.SoloTests(s, c, kid, s.now);
    es, mid := V.Advance(s, es, mid, Tick(late));
    s' := StepKey(mid, c).value;
  }

  /** A load as soon as one is due, */
  lemma DueLoad(s: State, c: CallId, kid: string, key: PublicKey, due: int) returns (es: seq<Event>, s': State)
    requires V.Quiet(s) && c !in s.calls && s.now <= due && !CacheFresh(s.cache, due) && !Cooling(s.cache, due)
    ensures V.Leads(s, es, s') && s'.now == due && V.Quiet(s'.(refreshMu := None))
    ensures s'.stores == s.stores + [Stored(due, map[kid := key])]
    ensures s'.cache.keys == map[kid := key] && s'.cache.fetched == Some(due)
    ensures s'.calls == s.calls[c := Call(kid, Unlocking(Lookup(s.cache.keys, kid), Refreshed))]
  {
    var t := V.Readings(due, due, due, due, due);
    var load := LoadOk(map[kid := key]);
    es, s' := V.SoloFirstRead(s, c, kid, due, due);
    es, s' := V.SoloRefresh(s, es, s', c, Lookup(s.cache.keys, kid), t, load);
  }

  /** and a reread long after it. */
  lemma LateReread(s: State, c: CallId, kid: string, key: PublicKey, due: int, late: int)
    returns (es: seq<Event>, mid: State, s': State)
    requires V.Quiet(s) && c !in s.calls && s.now <= due <= late
    requires !CacheFresh(s.cache, due) && !Cooling(s.cache, due)
    ensures V.Leads(s, es, mid) && mid.now == late && Live(mid, c) && Next(mid, Step(c)) == Some(s')
    ensures s'.now == late && s'.stores == s.stores + [Stored(due, map[kid := key])]
    ensures Returned(s', c, Found(key)) && s'.calls[c].kid == kid && s'.cache.fetched == Some(due)
  {
    es, mid := DueLoad(s, c, kid, key, due);
    es, mid := V.Advance(s, es, mid, Tick(late));
    es, mid := V.SoloLookup(s, es, mid, c, Lookup(s.cache.keys, kid));
    s' := StepKey(mid, c).value;
  }

  /** The same from a state in which no lock is held. */
  lemma OldFromQuiet(s: State, c: CallId, kid: string, key: PublicKey, late: int)
    returns (es: seq<Event>, mid: State, s': State)
    requires Sound(s, c) && V.Quiet(s) && Deadline(s, kid) <= late
    ensures V.Leads(s, es, mid) && mid.now == late && Live(mid, c) && Next(mid, Step(c)) == Some(s')
    ensures s'.now == late && AllOld(s') && c in s'.calls && s'.calls[c].kid == kid
    ensures var hit := CacheFresh(s.cache, s.now) && kid in s.cache.keys;
            Returned(s', c, Found(if hit then s.cache.keys[kid] else key))
  {
    if CacheFresh(s.cache, s.now) && kid in s.cache.keys {
      es, mid, s' := LateHit(s, c, kid, late);
    } else {
      es, mid, s' := LateReread(s, c, kid, key, Due(s), late);
    }
  }

  /** From every reachable state, whatever the other calls are doing, a call can return at any instant from its
      deadline on, and return a key, when every key set ever stored is past its TTL. */
  lemma OldAfterDeadline(states: seq<State>, events: seq<Event>, n: nat, c: CallId, kid: string, key: PublicKey,
                         late: int)
    returns (mid: State, s': State)
    requires IsRun(states, events) && n < |states| && c !in states[n].calls
    requires Deadline(states[n], kid) <= late
    ensures ReturnsAt(states[n], mid, s', c, late)
    ensures s'.calls[c].kid == kid && s'.calls[c].pc.answer.Found? && s'.now == late && AllOld(s')
    ensures V.Quiet(states[n]) ==>
              var hit := CacheFresh(states[n].cache, states[n].now) && kid in states[n].cache.keys;
              Returned(s', c, Found(if hit then states[n].cache.keys[kid] else key))
  {
    RunInv(states, events, n);
    StoresInOrder(states, events, n);
    V.Start(states[n]);
    var before, s := [], states[n];
    if !V.Quiet(s) {
      before, s := Drain(s, before, s, c, kid, key);
    }
    var es;
    es, mid, s' := OldFromQuiet(s, c, kid, key, late);
    V.LeadsOn(states[n], before, s, es, mid);
  }

  lemma Extend(states: seq<State>, events: seq<Event>, es: seq<Event>, s': State) returns (longer: seq<State>)
    requires IsRun(states, events) && V.Leads(states[|events|], es, s')
    ensures IsRun(longer, events + es) && longer[|events|] == states[|events|] && longer[|events + es|] == s'
  {
    var path :| V.IsPath(path, es) && path[0] == states[|events|] && path[|es|] == s';
    longer := states + path[1..];
    forall i | 0 <= i < |events + es| ensures Next(longer[i], (events + es)[i]) == Some(longer[i + 1]) {
      V.Joined(states, events, path, es, i);
    }
  }

  /** Whatever happens, if the call for `kid` returns a key at the instant `late`, the key is young then. */
  ghost predicate AlwaysYoung(s: State, c: CallId, kid: string, late: int) {
    forall mid, s' :: ReturnsAt(s, mid, s', c, late) && s'.calls[c].kid == kid ==> Young(s', c)
  }

  lemma YoungReturn(states: seq<State>, events: seq<Event>, c: CallId, mid: State, s': State, late: int)
    requires IsRun(states, events) && c !in states[|events|].calls
    requires ReturnsAt(states[|events|], mid, s', c, late) && late < Deadline(states[|events|], s'.calls[c].kid)
    ensures Young(s', c)
  {
    var es :| V.Leads(states[|events|], es, mid);
    var es', after := V.Advance(states[|events|], es, mid, Step(c));
    var longer := Extend(states, events, es', s');
    StepMoves(mid, c, s');
    NextSameTime(mid, c, s');
    if s'.calls[c].pc.answer.Found? {
      YoungBeforeDeadline(longer, events + es', |events|, |events + es'|, c, s'.calls[c].pc.answer.key);
    }
  }

  lemma NextSameTime(s: State, c: CallId, s': State)
    requires c in s.calls && StepCall(s, c) == Some(s')
    ensures s'.now == s.now
  {
  }

  /** The deadline is exact, at every reachable state. */
  lemma DeadlineIsExact(states: seq<State>, events: seq<Event>, c: CallId, kid: string, late: int)
    requires IsRun(states, events) && c !in states[|events|].calls
    ensures AlwaysYoung(states[|events|], c, kid, late) <==> late < Deadline(states[|events|], kid)
  {
    var s := states[|events|];
    if late < Deadline(s, kid) {
      forall mid, s' | ReturnsAt(s, mid, s', c, late) && s'.calls[c].kid == kid ensures Young(s', c) {
        YoungReturn(states, events, c, mid, s', late);
      }
    } else {
      var mid, s' := OldAfterDeadline(states, events, |events|, c, kid, PublicKey(0, 0), late);
      assert !Young(s', c);
    }
  }

  /** For example: from the first state on, a call that returns after a full TTL. */
  lemma AnswerMayOutliveTheTTL(key: PublicKey) returns (mid: State, s': State)
    ensures ReturnsAt(Init(0), mid, s', 0, KEY_CACHE_TTL)
    ensures Returned(s', 0, Found(key)) && s'.now == KEY_CACHE_TTL && !CacheFresh(s'.cache, s'.now) && AllOld(s')
    ensures s'.cache.fetched == Some(0) && s'.now == 600_000_000_000
  {
    var es;
    es, mid, s' := LateReread(Init(0), 0, "kid", key, 0, KEY_CACHE_TTL);
  }
}
