/** The verifier object whose fields the key cache lives in, and its two methods when they run
    undisturbed; `SoloCall` and `LoneCall` tie them to the transition system of KeyCache. */
module Verifier {
  import opened Common
  import opened KeySet
  import opened KeyCache
  import KeyCacheInvariant

  /** The clock readings of one call, in the order in which the code takes them. */
  datatype Readings = Readings(firstTest: int, recheck: int, coolTest: int, attempted: int, fetched: int)

  predicate Ordered(from: int, t: Readings) {
    from <= t.firstTest <= t.recheck <= t.coolTest <= t.attempted <= t.fetched
  }

  /** What an undisturbed refresh answers and leaves behind, given what the issuer would serve. */
  function RefreshOutcome(cache: Cache, t: Readings, load: LoadOutcome): (RefreshResult, Cache) {
    var verdict := AfterRecheck(CacheFresh(cache, t.recheck), Cooling(cache, t.coolTest));
    if verdict.Some? then (verdict.value, cache)
    else (LoadResult(load), match load
                            case LoadOk(keys) => Cache(keys, Some(t.fetched), Some(t.attempted))
                            case LoadFailed(_) => cache.(attempted := Some(t.attempted)))
  }

  function KeyOutcome(cache: Cache, kid: string, t: Readings, load: LoadOutcome): (KeyResult, Cache) {
    var hit := Lookup(cache.keys, kid);
    var first := AfterFirstRead(hit, CacheFresh(cache, t.firstTest));
    if first.Some? then (first.value, cache)
    else
      var (result, cache') := RefreshOutcome(cache, t, load);
      var second := AfterRefresh(hit, result);
      (if second.Some? then second.value else AfterReread(Lookup(cache'.keys, kid)), cache')
  }

  /** The same in plain terms, with ten minutes of trust and one minute of cooldown: what refresh owes. */
  predicate RefreshSays(before: Cache, t: Readings, load: LoadOutcome, result: RefreshResult, after: Cache) {
    if before.fetched.Some? && t.recheck < before.fetched.value + 600_000_000_000 then
      result == Refreshed && after == before
    else if before.attempted.Some? && t.coolTest < before.attempted.value + 60_000_000_000 then
      result == CoolingDown && after == before
    else
      match load
      case LoadOk(keys) => result == Refreshed && after == Cache(keys, Some(t.fetched), Some(t.attempted))
      case LoadFailed(error) =>
        result == RefreshFailed(error) && after == Cache(before.keys, before.fetched, Some(t.attempted))
  }

  /** What a call owes: a lookup in the trusted keys, or an error that tells a stale key from a missing one. */
  predicate KeySays(before: Cache, kid: string, t: Readings, load: LoadOutcome, answer: KeyResult, after: Cache) {
    if before.fetched.Some? && t.firstTest < before.fetched.value + 600_000_000_000 then
      after == before && answer == if kid in before.keys then Found(before.keys[kid]) else UnknownKeyID
    else if before.fetched.Some? && t.recheck < before.fetched.value + 600_000_000_000 then
      after == before && answer == if kid in before.keys then Found(before.keys[kid]) else UnknownKeyID
    else if before.attempted.Some? && t.coolTest < before.attempted.value + 60_000_000_000 then
      after == before && answer == if kid in before.keys then StaleKeys else UnknownKeyID
    else
      match load
      case LoadOk(keys) =>
        after == Cache(keys, Some(t.fetched), Some(t.attempted))
        && answer == if kid in keys then Found(keys[kid]) else UnknownKeyID
      case LoadFailed(error) =>
        after == Cache(before.keys, before.fetched, Some(t.attempted))
        && answer == if kid in before.keys then StaleKeys else LoadError(error)
  }

  lemma OutcomesSay(cache: Cache, kid: string, t: Readings, load: LoadOutcome)
    ensures RefreshSays(cache, t, load, RefreshOutcome(cache, t, load).0, RefreshOutcome(cache, t, load).1)
    ensures KeySays(cache, kid, t, load, KeyOutcome(cache, kid, t, load).0, KeyOutcome(cache, kid, t, load).1)
  {
  }

  class Verifier {
    var keys: KeyMap
    var fetched: Option<int>
    var attempted: Option<int>
    var clock: int

    function Contents(): Cache
      reads this
    {
      Cache(keys, fetched, attempted)
    }

    constructor (now: int)
      ensures Contents() == EMPTY_CACHE && clock == now
    {
      keys, fetched, attempted, clock := map[], None, None, now;
    }

    /** time.Now(): any amount of time may have passed since the last reading. */
    method Now() returns (t: int)
      modifies this`clock
      ensures old(clock) <= clock == t
    {
      var elapsed: int :| 0 <= elapsed;
      clock := clock + elapsed;
      t := clock;
    }

    method CacheIsFresh() returns (isFresh: bool)
      modifies this`clock
      ensures old(clock) <= clock && isFresh == CacheFresh(Contents(), clock)
    {
      var now := Now();
      isFresh := fetched.Some? && now - fetched.value < KEY_CACHE_TTL;
    }

    /** `load` is what loadKeys would return; it counts only when the method gets that far. */
    method Refresh(load: LoadOutcome, ghost before: Readings) returns (result: RefreshResult, ghost t: Readings)
      modifies this
      ensures t.firstTest == before.firstTest
      ensures old(clock) <= t.recheck <= t.coolTest <= t.attempted <= t.fetched && clock <= t.fetched
      ensures (result, Contents()) == RefreshOutcome(old(Contents()), t, load)
      ensures RefreshSays(old(Contents()), t, load, result, Contents())
    {
      var isFresh := CacheIsFresh();
      ghost var recheck := clock;
      var now := Now();
      var isCooling := attempted.Some? && now - attempted.value < REFRESH_COOLDOWN;
      t := Readings(before.firstTest, recheck, now, now, now);
      if isFresh {
        return Refreshed, t;
      }
      if isCooling {
        return CoolingDown, t;
      }
      var _ := Now();
      attempted := Some(clock);
      t := t.(attempted := clock, fetched := clock);
      match load
      case LoadFailed(error) =>
        result := RefreshFailed(error);
      case LoadOk(loaded) =>
        keys := loaded;
        var at := Now();
        fetched := Some(at);
        t := t.(fetched := at);
        result := Refreshed;
    }

    method Key(kid: string, load: LoadOutcome) returns (answer: KeyResult, ghost t: Readings)
      modifies this
      ensures Ordered(old(clock), t)
      ensures (answer, Contents()) == KeyOutcome(old(Contents()), kid, t, load)
      ensures KeySays(old(Contents()), kid, t, load, answer, Contents())
    {
      var cached := kid in keys;
      var key := if cached then Some(keys[kid]) else None;
      var isFresh := CacheIsFresh();
      t := Readings(clock, clock, clock, clock, clock);
      if cached && isFresh {
        return Found(key.value), t;
      }
      if isFresh {
        return UnknownKeyID, t;
      }
      var result;
      result, t := Refresh(load, t);
      if !result.Refreshed? {
        if cached {
          return StaleKeys, t;
        }
        if result.CoolingDown? {
          return UnknownKeyID, t;
        }
        return LoadError(result.error), t;
      }
      if kid !in keys {
        return UnknownKeyID, t;
      }
      answer := Found(keys[kid]);
    }
  }

  // ---------------------------------------------------------------- the undisturbed run of the machine

  ghost predicate IsPath(states: seq<State>, events: seq<Event>) {
    && |states| == |events| + 1
    && forall i :: 0 <= i < |events| ==> Next(states[i], events[i]) == Some(states[i + 1])
  }

  /** The events can happen one after the other and lead from s0 to s. */
  ghost predicate Leads(s0: State, events: seq<Event>, s: State) {
    exists states :: IsPath(states, events) && states[0] == s0 && states[|events|] == s
  }

  lemma Start(s: State)
    ensures Leads(s, [], s)
  {
    assert IsPath([s], []) && [s][0] == s;
  }

  lemma Advance(s0: State, es: seq<Event>, s: State, e: Event) returns (es': seq<Event>, s': State)
    requires Leads(s0, es, s) && Next(s, e).Some?
    ensures Leads(s0, es', s') && Next(s, e) == Some(s')
  {
    var states :| IsPath(states, es) && states[0] == s0 && states[|es|] == s;
    es', s' := es + [e], Next(s, e).value;
    var states' := states + [s'];
    assert IsPath(states', es') && states'[0] == s0 && states'[|es'|] == s';
  }

  lemma LeadsOn(s0: State, es: seq<Event>, s1: State, es': seq<Event>, s2: State)
    requires Leads(s0, es, s1) && Leads(s1, es', s2)
    ensures Leads(s0, es + es', s2)
  {
    var p :| IsPath(p, es) && p[0] == s0 && p[|es|] == s1;
    var q :| IsPath(q, es') && q[0] == s1 && q[|es'|] == s2;
    var r := p + q[1..];
    forall i | 0 <= i < |es + es'| ensures Next(r[i], (es + es')[i]) == Some(r[i + 1]) {
      Joined(p, es, q, es', i);
    }
    assert IsPath(r, es + es') && r[0] == s0 && r[|es + es'|] == s2;
  }

  /** Where the events of two paths come from that are put together. */
  lemma Joined(p: seq<State>, es: seq<Event>, q: seq<State>, es': seq<Event>, i: nat)
    requires |p| == |es| + 1 && |q| == |es'| + 1 && p[|es|] == q[0] && i < |es| + |es'|
    ensures var r := p + q[1..];
            if i < |es| then r[i] == p[i] && (es + es')[i] == es[i] && r[i + 1] == p[i + 1]
            else r[i] == q[i - |es|] && (es + es')[i] == es'[i - |es|] && r[i + 1] == q[i - |es| + 1]
  {
  }

  /** Let the clock reach `to`, then let `c` take one step: of key, */
  lemma KeyAt(s0: State, es: seq<Event>, s: State, c: CallId, to: int) returns (es': seq<Event>, s': State)
    requires Leads(s0, es, s) && s.now <= to && c in s.calls && InKey(s.calls[c].pc) && StepKey(s.(now := to), c).Some?
    ensures Leads(s0, es', s') && StepKey(s.(now := to), c) == Some(s')
  {
    var mid;
    es', mid := Advance(s0, es, s, Tick(to));
    es', s' := Advance(s0, es', mid, Step(c));
  }

  /** of refresh outside its write section, */
  lemma RefreshAt(s0: State, es: seq<Event>, s: State, c: CallId, to: int) returns (es': seq<Event>, s': State)
    requires Leads(s0, es, s) && s.now <= to && c in s.calls && StepRefresh(s.(now := to), c).Some?
    ensures Leads(s0, es', s') && StepRefresh(s.(now := to), c) == Some(s')
  {
    var mid;
    es', mid := Advance(s0, es, s, Tick(to));
    es', s' := Advance(s0, es', mid, Step(c));
  }

  /** or of the write section. */
  lemma StoreAt(s0: State, es: seq<Event>, s: State, c: CallId, to: int) returns (es': seq<Event>, s': State)
    requires Leads(s0, es, s) && s.now <= to && c in s.calls && InStore(s.calls[c].pc)
    requires StepStore(s.(now := to), c).Some?
    ensures Leads(s0, es', s') && StepStore(s.(now := to), c) == Some(s')
  {
    var mid;
    es', mid := Advance(s0, es, s, Tick(to));
    es', s' := Advance(s0, es', mid, Step(c));
  }

  /** Nobody holds or waits for a lock. */
  predicate Quiet(s: State) {
    s.refreshMu == None && s.readers == {} && s.writer == None
  }

  /** Its first read section up to the release of the lock, with the freshness test at t. */
  lemma SoloTests(s: State, c: CallId, kid: string, t: int) returns (es: seq<Event>, s': State)
    requires Quiet(s) && c !in s.calls && s.now <= t
    ensures Leads(s, es, s')
    ensures s' == s.(now := t, readers := {c},
                     calls := s.calls[c := Call(kid, ReadFresh(Lookup(s.cache.keys, kid), CacheFresh(s.cache, t)))])
  {
    var s1;
    Start(s);
    es, s1 := Advance(s, [], s, Invoke(c, kid));
    es, s' := KeyAt(s, es, s1, c, s.now);
    es, s' := KeyAt(s, es, s', c, s.now);
    es, s' := KeyAt(s, es, s', c, t);
  }

  /** Its first read section, with the freshness test at t and the release of the lock at `late`. */
  lemma SoloFirstRead(s: State, c: CallId, kid: string, t: int, late: int) returns (es: seq<Event>, s': State)
    requires Quiet(s) && c !in s.calls && s.now <= t <= late
    ensures Leads(s, es, s')
    ensures var hit := Lookup(s.cache.keys, kid);
            var answer := AfterFirstRead(hit, CacheFresh(s.cache, t));
            s' == s.(now := late,
                     calls := s.calls[c := Call(kid, if answer.Some? then Done(answer.value) else Refreshing(hit))])
  {
    es, s' := SoloTests(s, c, kid, t);
    es, s' := KeyAt(s, es, s', c, late);
    assert {c} - {c} == {};
  }

  lemma SoloLock(s0: State, before: seq<Event>, s: State, c: CallId, hit: Option<PublicKey>)
    returns (es: seq<Event>, s': State)
    requires Leads(s0, before, s) && Quiet(s) && c in s.calls && s.calls[c].pc == Refreshing(hit)
    ensures Leads(s0, es, s')
    ensures s' == s.(refreshMu := Some(c), readers := {c}, calls := s.calls[c := Call(s.calls[c].kid, Rechecking(hit))])
  {
    es, s' := RefreshAt(s0, before, s, c, s.now);
    es, s' := RefreshAt(s0, es, s', c, s.now);
  }

  /** Refresh up to its verdict: the lock, and the read section under it. */
  lemma SoloRecheck(s0: State, before: seq<Event>, s: State, c: CallId, hit: Option<PublicKey>, t: Readings)
    returns (es: seq<Event>, s': State)
    requires Leads(s0, before, s) && Quiet(s) && s.now <= t.recheck <= t.coolTest
    requires c in s.calls && s.calls[c].pc == Refreshing(hit)
    ensures Leads(s0, es, s')
    ensures var verdict := AfterRecheck(CacheFresh(s.cache, t.recheck), Cooling(s.cache, t.coolTest));
            s' == s.(now := t.coolTest, refreshMu := Some(c),
                     calls := s.calls[c := Call(s.calls[c].kid, if verdict.Some? then Unlocking(hit, verdict.value)
                                                                else LoadReady(hit))])
  {
    es, s' := SoloLock(s0, before, s, c, hit);
    es, s' := RefreshAt(s0, es, s', c, t.recheck);
    es, s' := RefreshAt(s0, es, s', c, t.coolTest);
    es, s' := RefreshAt(s0, es, s', c, t.coolTest);
    assert {c} - {c} == {};
  }

  /** The load, up to the write section. */
  lemma SoloLoad(s0: State, before: seq<Event>, s: State, c: CallId, hit: Option<PublicKey>, load: LoadOutcome)
    returns (es: seq<Event>, s': State)
    requires Leads(s0, before, s) && s.readers == {} && s.writer == None
    requires c in s.calls && s.calls[c].pc == LoadReady(hit)
    ensures Leads(s0, es, s')
    ensures s' == s.(starts := s.starts + [s.now], writer := Some(c),
                     calls := s.calls[c := Call(s.calls[c].kid, Writing(hit, load))])
  {
    es, s' := RefreshAt(s0, before, s, c, s.now);
    es, s' := Advance(s0, es, s', LoadEnds(c, load));
    es, s' := StoreAt(s0, es, s', c, s.now);
    es, s' := StoreAt(s0, es, s', c, s.now);
  }

  /** What a load adds to the log of stores. */
  function Logged(load: LoadOutcome, at: int): seq<Stored> {
    match load
    case LoadOk(keys) => [Stored(at, keys)]
    case LoadFailed(_) => []
  }

  /** The assignments of the write section. */
  lemma SoloAssign(s0: State, before: seq<Event>, s: State, c: CallId, hit: Option<PublicKey>, t: Readings,
                   load: LoadOutcome)
    returns (es: seq<Event>, s': State)
    requires Leads(s0, before, s) && s.now == t.attempted <= t.fetched
    requires c in s.calls && s.calls[c].pc == WroteAttempted(hit, load)
    ensures Leads(s0, es, s') && s.now <= s'.now <= t.fetched
    ensures s' == s.(now := s'.now, stores := s.stores + Logged(load, t.fetched),
                     calls := s.calls[c := Call(s.calls[c].kid, Written(hit, load))],
                     cache := match load
                              case LoadOk(keys) => s.cache.(keys := keys, fetched := Some(t.fetched))
                              case LoadFailed(_) => s.cache)
  {
    es, s' := StoreAt(s0, before, s, c, t.attempted);
    if load.LoadOk? {
      es, s' := StoreAt(s0, es, s', c, t.fetched);
    } else {
      assert s.stores + [] == s.stores;
    }
  }

  lemma SoloAttempted(s0: State, before: seq<Event>, s: State, c: CallId, hit: Option<PublicKey>, at: int,
                      load: LoadOutcome)
    returns (es: seq<Event>, s': State)
    requires Leads(s0, before, s) && s.now <= at && c in s.calls && s.calls[c].pc == Writing(hit, load)
    ensures Leads(s0, es, s')
    ensures s' == s.(now := at, cache := s.cache.(attempted := Some(at)),
                     calls := s.calls[c := Call(s.calls[c].kid, WroteAttempted(hit, load))])
  {
    es, s' := StoreAt(s0, before, s, c, at);
  }

  /** The write section. */
  lemma SoloStore(s0: State, before: seq<Event>, s: State, c: CallId, hit: Option<PublicKey>, t: Readings,
                  load: LoadOutcome)
    returns (es: seq<Event>, s': State)
    requires Leads(s0, before, s) && s.now <= t.attempted <= t.fetched && s.writer == Some(c)
    requires c in s.calls && s.calls[c].pc == Writing(hit, load)
    ensures Leads(s0, es, s') && s.now <= s'.now <= t.fetched
    ensures s'.readers == s.readers && s'.writer == None && s'.refreshMu == s.refreshMu
    ensures s'.stores == s.stores + Logged(load, t.fetched)
    ensures s'.calls == s.calls[c := Call(s.calls[c].kid, Unlocking(hit, LoadResult(load)))]
    ensures s'.cache == match load
                        case LoadOk(keys) => Cache(keys, Some(t.fetched), Some(t.attempted))
                        case LoadFailed(_) => s.cache.(attempted := Some(t.attempted))
  {
    es, s' := SoloAttempted(s0, before, s, c, hit, t.attempted, load);
    es, s' := SoloAssign(s0, es, s', c, hit, t, load);
    es, s' := StoreAt(s0, es, s', c, s'.now);
  }

  lemma SoloRefresh(s0: State, before: seq<Event>, s: State, c: CallId, hit: Option<PublicKey>, t: Readings,
                    load: LoadOutcome)
    returns (es: seq<Event>, s': State)
    requires Leads(s0, before, s) && Quiet(s) && s.now == t.firstTest && Ordered(s.now, t)
    requires c in s.calls && s.calls[c].pc == Refreshing(hit)
    ensures Leads(s0, es, s') && s.now <= s'.now <= t.fetched
    ensures Quiet(s'.(refreshMu := None)) && s'.refreshMu == Some(c)
    ensures var (result, cache') := RefreshOutcome(s.cache, t, load);
            s'.cache == cache' && s'.calls == s.calls[c := Call(s.calls[c].kid, Unlocking(hit, result))]
    ensures Stale(s.cache, t) ==> s'.stores == s.stores + Logged(load, t.fetched)
  {
    es, s' := SoloRecheck(s0, before, s, c, hit, t);
    if Stale(s.cache, t) {
      es, s' := SoloLoad(s0, es, s', c, hit, load);
      es, s' := SoloStore(s0, es, s', c, hit, t, load);
    }
  }

  /** An undisturbed refresh with these readings gets as far as the load. */
  predicate Stale(cache: Cache, t: Readings) {
    AfterRecheck(CacheFresh(cache, t.recheck), Cooling(cache, t.coolTest)).None?
  }

  /** The unlock of refreshMu after a good refresh, and the second read section up to the release of its lock. */
  lemma SoloLookup(s0: State, before: seq<Event>, s: State, c: CallId, hit: Option<PublicKey>)
    returns (es: seq<Event>, s': State)
    requires Leads(s0, before, s) && Quiet(s.(refreshMu := None))
    requires c in s.calls && s.calls[c].pc == Unlocking(hit, Refreshed)
    ensures Leads(s0, es, s')
    ensures var kid := s.calls[c].kid;
            s' == s.(refreshMu := None, readers := {c},
                     calls := s.calls[c := Call(kid, Reread(Lookup(s.cache.keys, kid)))])
  {
    es, s' := RefreshAt(s0, before, s, c, s.now);
    es, s' := KeyAt(s0, es, s', c, s.now);
    es, s' := KeyAt(s0, es, s', c, s.now);
  }

  /** The unlock of refreshMu and, after a good refresh, the second read section. */
  lemma SoloReread(s0: State, before: seq<Event>, s: State, c: CallId, hit: Option<PublicKey>, result: RefreshResult)
    returns (es: seq<Event>, s': State)
    requires Leads(s0, before, s) && Quiet(s.(refreshMu := None))
    requires c in s.calls && s.calls[c].pc == Unlocking(hit, result)
    ensures Leads(s0, es, s') && Quiet(s') && s'.cache == s.cache && s'.now == s.now && s'.stores == s.stores
    ensures var kid := s.calls[c].kid;
            var answer := AfterRefresh(hit, result);
            s'.calls == s.calls[c := Call(kid, Done(if answer.Some? then answer.value
                                                    else AfterReread(Lookup(s.cache.keys, kid))))]
  {
    if result.Refreshed? {
      es, s' := SoloLookup(s0, before, s, c, hit);
      es, s' := KeyAt(s0, es, s', c, s.now);
    } else {
      es, s' := RefreshAt(s0, before, s, c, s.now);
    }
  }

  /** For all readings and every load, one call alone in the machine can do what the methods above are
      specified to do. */
  lemma SoloCall(s: State, c: CallId, kid: string, t: Readings, load: LoadOutcome) returns (es: seq<Event>, s': State)
    requires Quiet(s) && c !in s.calls && Ordered(s.now, t)
    ensures Leads(s, es, s') && Quiet(s')
    ensures s'.calls == s.calls[c := Call(kid, Done(KeyOutcome(s.cache, kid, t, load).0))]
    ensures s'.cache == KeyOutcome(s.cache, kid, t, load).1
    ensures KeySays(s.cache, kid, t, load, s'.calls[c].pc.answer, s'.cache)
  {
    OutcomesSay(s.cache, kid, t, load);
    es, s' := SoloFirstRead(s, c, kid, t.firstTest, t.firstTest);
    if !CacheFresh(s.cache, t.firstTest) {
      es, s' := SoloSecondHalf(s, es, s', c, t, load);
    }
  }

  /** The rest of a call that goes to refresh. */
  lemma SoloSecondHalf(s0: State, before: seq<Event>, s: State, c: CallId, t: Readings, load: LoadOutcome)
    returns (es: seq<Event>, s': State)
    requires Leads(s0, before, s) && Quiet(s) && s.now == t.firstTest && Ordered(s.now, t)
    requires c in s.calls && s.calls[c].pc == Refreshing(Lookup(s.cache.keys, s.calls[c].kid))
    requires !CacheFresh(s.cache, t.firstTest)
    ensures Leads(s0, es, s') && Quiet(s')
    ensures var kid := s.calls[c].kid;
            s'.calls == s.calls[c := Call(kid, Done(KeyOutcome(s.cache, kid, t, load).0))]
            && s'.cache == KeyOutcome(s.cache, kid, t, load).1
  {
    var hit := s.calls[c].pc.hit;
    es, s' := SoloRefresh(s0, before, s, c, hit, t, load);
    es, s' := SoloReread(s0, es, s', c, hit, RefreshOutcome(s.cache, t, load).0);
  }

  // ---------------------------------------------------------------- and it can do nothing else

  /** A call that alone has run from `cache` stands at pc with the cache `now`, for these readings and this
      load; readings that are still to come equal the last one. */
  ghost predicate Tracks(cache: Cache, kid: string, pc: Pc, now: Cache, t: Readings, load: LoadOutcome) {
    var hit := Lookup(cache.keys, kid);
    var isFresh := CacheFresh(cache, t.firstTest);
    var rechecked := CacheFresh(cache, t.recheck);
    var isCooling := Cooling(cache, t.coolTest);
    var outcome := RefreshOutcome(cache, t, load);
    match pc
    case Invoked => now == cache
    case Reading => now == cache
    case ReadKey(h) => now == cache && h == hit
    case ReadFresh(h, f) => now == cache && h == hit && f == isFresh
    case Refreshing(h) => now == cache && h == hit && !isFresh
    case Locked(h) => now == cache && h == hit && !isFresh
    case Rechecking(h) => now == cache && h == hit && !isFresh
    case RecheckedFresh(h, f) => now == cache && h == hit && !isFresh && f == rechecked
    case Rechecked(h, f, g) => now == cache && h == hit && !isFresh && f == rechecked && g == isCooling
    case LoadReady(h) => now == cache && h == hit && !isFresh && Stale(cache, t)
    case Loading(h) => now == cache && h == hit && !isFresh && Stale(cache, t)
    case Loaded(h, o) => now == cache && h == hit && !isFresh && Stale(cache, t) && o == load
    case Announced(h, o) => now == cache && h == hit && !isFresh && Stale(cache, t) && o == load
    case Writing(h, o) => now == cache && h == hit && !isFresh && Stale(cache, t) && o == load
    case WroteAttempted(h, o) =>
      now == cache.(attempted := Some(t.attempted)) && h == hit && !isFresh && Stale(cache, t) && o == load
    case WroteKeys(h, o) =>
      h == hit && !isFresh && Stale(cache, t) && o == load && load.LoadOk?
      && now == cache.(attempted := Some(t.attempted), keys := load.keys)
    case Written(h, o) => now == outcome.1 && h == hit && !isFresh && Stale(cache, t) && o == load
    case Unlocking(h, r) => (r, now) == outcome && h == hit && !isFresh
    case RereadReady => now == outcome.1 && outcome.0.Refreshed? && !isFresh
    case Rereading => now == outcome.1 && outcome.0.Refreshed? && !isFresh
    case Reread(found) => now == outcome.1 && outcome.0.Refreshed? && !isFresh && found == Lookup(now.keys, kid)
    case Done(answer) => (answer, now) == KeyOutcome(cache, kid, t, load)
  }

  /** The readings once the clock has been read at `now` for the k-th of the five. */
  function Taken(t: Readings, k: nat, now: int): Readings {
    Readings(if k <= 0 then now else t.firstTest, if k <= 1 then now else t.recheck,
             if k <= 2 then now else t.coolTest, if k <= 3 then now else t.attempted, now)
  }

  /** The reading that a step from pc takes; 5 when it takes none. */
  function Reads(pc: Pc): nat {
    if pc.ReadKey? then 0 else if pc.Rechecking? then 1 else if pc.RecheckedFresh? then 2
    else if pc.Writing? then 3 else if pc.WroteKeys? then 4 else 5
  }

  function After(t: Readings, pc: Pc, now: int): Readings {
    if Reads(pc) < 5 then Taken(t, Reads(pc), now) else t
  }

  lemma LoneKeyStep(cache: Cache, s: State, c: CallId, s': State, t: Readings, load: LoadOutcome)
    requires c in s.calls && StepKey(s, c) == Some(s') && c in s'.calls
    requires Tracks(cache, s.calls[c].kid, s.calls[c].pc, s.cache, t, load)
    ensures Tracks(cache, s.calls[c].kid, s'.calls[c].pc, s'.cache, After(t, s.calls[c].pc, s.now), load)
  {
  }

  lemma LoneRefreshStep(cache: Cache, s: State, c: CallId, s': State, t: Readings, load: LoadOutcome)
    requires c in s.calls && StepRefresh(s, c) == Some(s') && c in s'.calls
    requires Tracks(cache, s.calls[c].kid, s.calls[c].pc, s.cache, t, load)
    ensures Tracks(cache, s.calls[c].kid, s'.calls[c].pc, s'.cache, After(t, s.calls[c].pc, s.now), load)
  {
  }

  lemma LoneStoreStep(cache: Cache, s: State, c: CallId, s': State, t: Readings, load: LoadOutcome)
    requires c in s.calls && StepStore(s, c) == Some(s') && c in s'.calls
    requires Tracks(cache, s.calls[c].kid, s.calls[c].pc, s.cache, t, load)
    ensures Tracks(cache, s.calls[c].kid, s'.calls[c].pc, s'.cache, After(t, s.calls[c].pc, s.now), load)
  {
  }

  /** Events of call `c` for key ID `kid`, and of the clock. */
  predicate Alone(e: Event, c: CallId, kid: string) {
    e.Tick? || (e.c == c && (e.Invoke? ==> e.kid == kid))
  }

  lemma LoneStep(cache: Cache, s: State, e: Event, s': State, c: CallId, kid: string, t: Readings, load: LoadOutcome)
    returns (t': Readings, load': LoadOutcome)
    requires Next(s, e) == Some(s') && Alone(e, c, kid) && c in s.calls && s.calls[c].kid == kid
    requires Tracks(cache, kid, s.calls[c].pc, s.cache, t, load)
    requires Ordered(t.firstTest, t) && t.fetched <= s.now
    ensures c in s'.calls && s'.calls[c].kid == kid
    ensures Tracks(cache, kid, s'.calls[c].pc, s'.cache, t', load')
    ensures Ordered(t'.firstTest, t') && t.firstTest <= t'.firstTest && t'.fetched <= s'.now
  {
    t', load' := t, load;
    if e.Step? {
      var pc := s.calls[c].pc;
      KeyCacheInvariant.StepMoves(s, c, s');
      t' := After(t, pc, s.now);
      LoneOwnStep(cache, s, c, s', t, load);
    } else if e.LoadEnds? {
      load' := e.outcome;
    }
  }

  lemma LoneOwnStep(cache: Cache, s: State, c: CallId, s': State, t: Readings, load: LoadOutcome)
    requires c in s.calls && StepCall(s, c) == Some(s') && c in s'.calls
    requires Tracks(cache, s.calls[c].kid, s.calls[c].pc, s.cache, t, load)
    ensures Tracks(cache, s.calls[c].kid, s'.calls[c].pc, s'.cache, After(t, s.calls[c].pc, s.now), load)
    ensures s'.now == s.now
  {
    var pc := s.calls[c].pc;
    if InKey(pc) {
      LoneKeyStep(cache, s, c, s', t, load);
    } else if InStore(pc) {
      LoneStoreStep(cache, s, c, s', t, load);
    } else {
      LoneRefreshStep(cache, s, c, s', t, load);
    }
  }

  /** From any state, when only `c` and the clock move, the call stands where its readings and its load put it. */
  lemma {:induction false} LoneRun(states: seq<State>, events: seq<Event>, n: nat, c: CallId, kid: string)
    returns (t: Readings, load: LoadOutcome)
    requires IsPath(states, events) && n < |states| && c !in states[0].calls
    requires forall i :: 0 <= i < |events| ==> Alone(events[i], c, kid)
    ensures Ordered(states[0].now, t) && t.fetched <= states[n].now
    ensures c !in states[n].calls ==> states[n].cache == states[0].cache
    ensures c in states[n].calls ==> states[n].calls[c].kid == kid
    ensures c in states[n].calls ==> Tracks(states[0].cache, kid, states[n].calls[c].pc, states[n].cache, t, load)
  {
    if n == 0 {
      var now := states[0].now;
      t, load := Readings(now, now, now, now, now), LoadFailed("");
    } else {
      t, load := LoneRun(states, events, n - 1, c, kid);
      if c in states[n - 1].calls {
        t, load := LoneStep(states[0].cache, states[n - 1], events[n - 1], states[n], c, kid, t, load);
      }
    }
  }

  /** When only call `c` and the clock move, the call can return nothing but what the method is specified to
      return, for some readings inside the call and some load, and the cache is what the method leaves. */
  lemma LoneCall(states: seq<State>, events: seq<Event>, n: nat, c: CallId, kid: string)
    returns (t: Readings, load: LoadOutcome)
    requires IsPath(states, events) && n < |states| && c !in states[0].calls
    requires forall i :: 0 <= i < |events| ==> Alone(events[i], c, kid)
    requires c in states[n].calls && states[n].calls[c].pc.Done?
    ensures Ordered(states[0].now, t) && t.fetched <= states[n].now
    ensures (states[n].calls[c].pc.answer, states[n].cache) == KeyOutcome(states[0].cache, kid, t, load)
    ensures KeySays(states[0].cache, kid, t, load, states[n].calls[c].pc.answer, states[n].cache)
  {
    t, load := LoneRun(states, events, n, c, kid);
    OutcomesSay(states[0].cache, kid, t, load);
  }
}
