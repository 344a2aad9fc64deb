/** What decides the answer of a call, over every run and in plain terms. A story says what a call has met so far;
    `Seen` ties each part of it to a step of the call, or the end of its load, and to the states around it, and `Owes`
    says what the code must answer to the whole of it. They speak of cache fields, times in nanoseconds and events only,
    and not of the functions with which the transition system computes its answers. */
module KeyCacheAnswers {
  import opened Common
  import opened KeySet
  import opened KeyCache
  import opened KeyCacheInvariant
  import opened KeyCacheTheorems
  import KeyCacheRates

  /** Fetched less than ten minutes ago. */
  predicate FreshIn(s: State) {
    s.cache.fetched.Some? && s.now < s.cache.fetched.value + 600_000_000_000
  }

  /** Attempted less than one minute ago. */
  predicate CoolingIn(s: State) {
    s.cache.attempted.Some? && s.now < s.cache.attempted.value + 60_000_000_000
  }

  /** What the key map holds for the ID. */
  function Entry(keys: KeyMap, kid: string): Option<PublicKey> {
    if kid in keys then Some(keys[kid]) else None
  }

  /** What a call has met: the result of its first lookup and of its first freshness test, of the two tests under
      refreshMu, the end of its load, the recording of the attempt and of the keys, and the result of its second
      lookup. */
  datatype Story = Story(hit: Option<Option<PublicKey>>, isFresh: Option<bool>, rechecked: Option<bool>,
                         isCooling: Option<bool>, load: Option<LoadOutcome>, attempted: bool, stored: bool,
                         found: Option<Option<PublicKey>>)

  /** Where in the run it met that. */
  datatype Trail = Trail(look: nat, test: nat, recheck: nat, cool: nat, load: nat, attempt: nat, store: nat, again: nat)

  /** Before n, step j was one of call `c`. */
  ghost predicate Own(states: seq<State>, events: seq<Event>, n: nat, j: nat, c: CallId) {
    j < n <= |events| && n < |states| && events[j] == Step(c) && c in states[j].calls
  }

  /** Step j looked the ID up in a whole key set. */
  ghost predicate Looked(states: seq<State>, events: seq<Event>, n: nat, j: nat, c: CallId, kid: string,
                         found: Option<PublicKey>) {
    Own(states, events, n, j, c) && !MidStore(states[j]) && found == Entry(states[j].cache.keys, kid)
  }

  /** Every part of the story happened, in this order. */
  ghost predicate Seen(states: seq<State>, events: seq<Event>, n: nat, c: CallId, kid: string, y: Story, w: Trail) {
    && (y.hit.Some? ==> Looked(states, events, n, w.look, c, kid, y.hit.value))
    && (y.isFresh.Some? ==>
          w.look < w.test && Own(states, events, n, w.test, c) && states[w.test].calls[c].pc.ReadKey?
          && y.isFresh.value == FreshIn(states[w.test]))
    && (y.rechecked.Some? ==>
          w.test < w.recheck && Own(states, events, n, w.recheck, c) && states[w.recheck].calls[c].pc.Rechecking?
          && y.rechecked.value == FreshIn(states[w.recheck]))
    && (y.isCooling.Some? ==>
          w.recheck < w.cool && Own(states, events, n, w.cool, c) && y.isCooling.value == CoolingIn(states[w.cool]))
    && (y.load.Some? ==> w.cool < w.load < n <= |events| && events[w.load] == LoadEnds(c, y.load.value))
    && (y.attempted ==>
          w.load < w.attempt && Own(states, events, n, w.attempt, c)
          && states[w.attempt + 1].cache == states[w.attempt].cache.(attempted := Some(states[w.attempt].now)))
    && (y.stored ==>
          w.attempt < w.store && Own(states, events, n, w.store, c) && y.load.Some? && y.load.value.LoadOk?
          && states[w.store + 1].cache.keys == y.load.value.keys
          && states[w.store + 1].cache.fetched == Some(states[w.store].now))
    && (y.found.Some? ==>
          w.recheck < w.again && (y.stored ==> w.store < w.again)
          && Looked(states, events, n, w.again, c, kid, y.found.value))
  }

  function ByLookup(found: Option<PublicKey>): KeyResult {
    match found
    case Some(key) => Found(key)
    case None => UnknownKeyID
  }

  /** What the code must answer. */
  predicate Owes(y: Story, answer: KeyResult) {
    if y.hit.None? || y.isFresh.None? then false
    else if y.isFresh.value then answer == ByLookup(y.hit.value)
    else if y.rechecked == Some(true) then y.found.Some? && answer == ByLookup(y.found.value)
    else if y.rechecked.None? then false
    else if y.isCooling == Some(true) then answer == if y.hit.value.Some? then StaleKeys else UnknownKeyID
    else if y.isCooling.None? || y.load.None? || !y.attempted then false
    else match y.load.value
         case LoadFailed(error) => answer == if y.hit.value.Some? then StaleKeys else LoadError(error)
         case LoadOk(_) => y.stored && y.found.Some? && answer == ByLookup(y.found.value)
  }

  /** refresh has returned nil. */
  predicate Refreshes(y: Story) {
    || y.rechecked == Some(true)
    || (y.rechecked == Some(false) && y.isCooling == Some(false) && y.load.Some? && y.load.value.LoadOk? && y.attempted
        && y.stored)
  }

  /** refresh has returned an error. */
  predicate Denies(y: Story, r: RefreshResult) {
    && y.rechecked == Some(false)
    && if r.CoolingDown? then y.isCooling == Some(true)
       else r.RefreshFailed? && y.isCooling == Some(false) && y.load == Some(LoadFailed(r.error)) && y.attempted
  }

  /** The story of a call at pc. */
  predicate Told(pc: Pc, y: Story) {
    var stale := y.hit.Some? && y.isFresh == Some(false);
    var loads := stale && y.rechecked == Some(false) && y.isCooling == Some(false);
    match pc
    case Invoked => true
    case Reading => true
    case ReadKey(h) => y.hit == Some(h)
    case ReadFresh(h, f) => y.hit == Some(h) && y.isFresh == Some(f)
    case Refreshing(h) => stale && y.hit == Some(h)
    case Locked(h) => stale && y.hit == Some(h)
    case Rechecking(h) => stale && y.hit == Some(h)
    case RecheckedFresh(h, f) => stale && y.hit == Some(h) && y.rechecked == Some(f)
    case Rechecked(h, f, g) => stale && y.hit == Some(h) && y.rechecked == Some(f) && y.isCooling == Some(g)
    case LoadReady(h) => loads && y.hit == Some(h)
    case Loading(h) => loads && y.hit == Some(h)
    case Loaded(h, o) => loads && y.hit == Some(h) && y.load == Some(o)
    case Announced(h, o) => loads && y.hit == Some(h) && y.load == Some(o)
    case Writing(h, o) => loads && y.hit == Some(h) && y.load == Some(o)
    case WroteAttempted(h, o) => loads && y.hit == Some(h) && y.load == Some(o) && y.attempted
    case WroteKeys(h, o) => loads && y.hit == Some(h) && y.load == Some(o) && y.attempted && o.LoadOk?
    case Written(h, o) => loads && y.hit == Some(h) && y.load == Some(o) && y.attempted && (o.LoadOk? ==> y.stored)
    case Unlocking(h, r) => stale && y.hit == Some(h) && (if r.Refreshed? then Refreshes(y) else Denies(y, r))
    case RereadReady => stale && Refreshes(y)
    case Rereading => stale && Refreshes(y)
    case Reread(found) => stale && Refreshes(y) && y.found == Some(found)
    case Done(answer) => Owes(y, answer)
  }

  /** How far a call has come; what is still to come is missing from the story. */
  predicate Pending(pc: Pc, y: Story) {
    var rank := KeyCacheRates.Rank(pc);
    && (rank >= 20 ==> y.hit.None?) && (rank >= 19 ==> y.isFresh.None?) && (rank >= 15 ==> y.rechecked.None?)
    && (rank >= 14 ==> y.isCooling.None?) && (rank >= 11 ==> y.load.None?) && (rank >= 8 ==> !y.attempted)
    && (rank >= 6 ==> !y.stored) && (rank >= 2 ==> y.found.None?)
  }

  /** The story after event e, at pc in state s. */
  function After(y: Story, s: State, kid: string, pc: Pc, e: Event): Story {
    if e.LoadEnds? then y.(load := Some(e.outcome))
    else if pc.Reading? then y.(hit := Some(Entry(s.cache.keys, kid)))
    else if pc.ReadKey? then y.(isFresh := Some(FreshIn(s)))
    else if pc.Rechecking? then y.(rechecked := Some(FreshIn(s)))
    else if pc.RecheckedFresh? then y.(isCooling := Some(CoolingIn(s)))
    else if pc.Writing? then y.(attempted := true)
    else if pc.WroteKeys? then y.(stored := true)
    else if pc.Rereading? then y.(found := Some(Entry(s.cache.keys, kid)))
    else y
  }

  function Longer(w: Trail, n: nat, pc: Pc): Trail {
    if pc.Reading? then w.(look := n)
    else if pc.ReadKey? then w.(test := n)
    else if pc.Rechecking? then w.(recheck := n)
    else if pc.RecheckedFresh? then w.(cool := n)
    else if pc.Loading? then w.(load := n)
    else if pc.Writing? then w.(attempt := n)
    else if pc.WroteKeys? then w.(store := n)
    else if pc.Rereading? then w.(again := n)
    else w
  }

  predicate Fits(pc: Pc, y: Story) {
    Told(pc, y) && Pending(pc, y)
  }

  lemma KeyFits(s: State, c: CallId, s': State, y: Story)
    requires c in s.calls && StepKey(s, c) == Some(s') && c in s'.calls && Fits(s.calls[c].pc, y)
    ensures Fits(s'.calls[c].pc, After(y, s, s.calls[c].kid, s.calls[c].pc, Step(c)))
  {
  }

  lemma RecheckFits(s: State, c: CallId, s': State, y: Story)
    requires c in s.calls && StepRefresh(s, c) == Some(s') && c in s'.calls && Fits(s.calls[c].pc, y)
    requires var pc := s.calls[c].pc; pc.Refreshing? || pc.Locked? || pc.Rechecking? || pc.RecheckedFresh?
    ensures Fits(s'.calls[c].pc, After(y, s, s.calls[c].kid, s.calls[c].pc, Step(c)))
  {
  }

  lemma VerdictFits(s: State, c: CallId, s': State, y: Story)
    requires c in s.calls && StepRefresh(s, c) == Some(s') && c in s'.calls && Fits(s.calls[c].pc, y)
    requires var pc := s.calls[c].pc; pc.Rechecked? || pc.LoadReady? || pc.Unlocking?
    ensures Fits(s'.calls[c].pc, After(y, s, s.calls[c].kid, s.calls[c].pc, Step(c)))
  {
  }

  lemma RefreshFits(s: State, c: CallId, s': State, y: Story)
    requires c in s.calls && StepRefresh(s, c) == Some(s') && c in s'.calls && Fits(s.calls[c].pc, y)
    ensures Fits(s'.calls[c].pc, After(y, s, s.calls[c].kid, s.calls[c].pc, Step(c)))
  {
    var pc := s.calls[c].pc;
    if pc.Rechecked? || pc.LoadReady? || pc.Unlocking? {
      VerdictFits(s, c, s', y);
    } else {
      RecheckFits(s, c, s', y);
    }
  }

  lemma StoreFits(s: State, c: CallId, s': State, y: Story)
    requires c in s.calls && StepStore(s, c) == Some(s') && c in s'.calls && Fits(s.calls[c].pc, y)
    ensures Fits(s'.calls[c].pc, After(y, s, s.calls[c].kid, s.calls[c].pc, Step(c)))
  {
  }

  /** What a step leaves in the cache, as far as the story goes. */
  predicate Records(s: State, c: CallId, s': State)
    requires c in s.calls
  {
    var pc := s.calls[c].pc;
    && (pc.Writing? ==> s'.cache == s.cache.(attempted := Some(s.now)))
    && (pc.WroteKeys? ==>
          pc.outcome.LoadOk? && s'.cache.keys == pc.outcome.keys && s'.cache.fetched == Some(s.now))
  }

  lemma StepRecords(s: State, c: CallId, s': State)
    requires c in s.calls && CallData(s, s.calls[c]) && StepCall(s, c) == Some(s')
    ensures Records(s, c, s') && !s.calls[c].pc.Loading?
  {
    if InStore(s.calls[c].pc) {
      assert StepStore(s, c) == Some(s');
    }
  }

  /** Event n is one of call `c`, whose story this is. */
  ghost predicate Meets(states: seq<State>, events: seq<Event>, n: nat, c: CallId, y: Story, w: Trail) {
    && n + 1 < |states| && n < |events| && c in states[n].calls
    && Seen(states, events, n, c, states[n].calls[c].kid, y, w) && Fits(states[n].calls[c].pc, y)
    && (HoldsRead(states[n].calls[c].pc) ==> !MidStore(states[n]))
    && if states[n].calls[c].pc.Loading? then events[n].LoadEnds? && events[n].c == c
       else events[n] == Step(c) && Records(states[n], c, states[n + 1])
  }

  /** What the call meets at event n is seen there. */
  ghost predicate SeenNext(states: seq<State>, events: seq<Event>, n: nat, c: CallId, y: Story, w: Trail)
    requires Meets(states, events, n, c, y, w)
  {
    var kid, pc := states[n].calls[c].kid, states[n].calls[c].pc;
    Seen(states, events, n + 1, c, kid, After(y, states[n], kid, pc, events[n]), Longer(w, n, pc))
  }

  lemma StillSeen(states: seq<State>, events: seq<Event>, n: nat, c: CallId, kid: string, y: Story, w: Trail)
    requires n + 1 < |states| && n < |events| && Seen(states, events, n, c, kid, y, w)
    ensures Seen(states, events, n + 1, c, kid, y, w)
  {
  }

  lemma SeesFirstRead(states: seq<State>, events: seq<Event>, n: nat, c: CallId, y: Story, w: Trail)
    requires Meets(states, events, n, c, y, w)
    requires states[n].calls[c].pc.Reading? || states[n].calls[c].pc.ReadKey?
    ensures SeenNext(states, events, n, c, y, w)
  {
    StillSeen(states, events, n, c, states[n].calls[c].kid, y, w);
  }

  lemma SeesRecheck(states: seq<State>, events: seq<Event>, n: nat, c: CallId, y: Story, w: Trail)
    requires Meets(states, events, n, c, y, w)
    requires states[n].calls[c].pc.Rechecking? || states[n].calls[c].pc.RecheckedFresh?
    ensures SeenNext(states, events, n, c, y, w)
  {
    StillSeen(states, events, n, c, states[n].calls[c].kid, y, w);
  }

  lemma SeesLoad(states: seq<State>, events: seq<Event>, n: nat, c: CallId, y: Story, w: Trail)
    requires Meets(states, events, n, c, y, w)
    requires states[n].calls[c].pc.Loading? || states[n].calls[c].pc.Writing?
    ensures SeenNext(states, events, n, c, y, w)
  {
    StillSeen(states, events, n, c, states[n].calls[c].kid, y, w);
  }

  lemma SeesStore(states: seq<State>, events: seq<Event>, n: nat, c: CallId, y: Story, w: Trail)
    requires Meets(states, events, n, c, y, w)
    requires states[n].calls[c].pc.WroteKeys? || states[n].calls[c].pc.Rereading?
    ensures SeenNext(states, events, n, c, y, w)
  {
    StillSeen(states, events, n, c, states[n].calls[c].kid, y, w);
  }

  lemma Sees(states: seq<State>, events: seq<Event>, n: nat, c: CallId, y: Story, w: Trail)
    requires Meets(states, events, n, c, y, w)
    ensures SeenNext(states, events, n, c, y, w)
  {
    var pc := states[n].calls[c].pc;
    if pc.Reading? || pc.ReadKey? {
      SeesFirstRead(states, events, n, c, y, w);
    } else if pc.Rechecking? || pc.RecheckedFresh? {
      SeesRecheck(states, events, n, c, y, w);
    } else if pc.Loading? || pc.Writing? {
      SeesLoad(states, events, n, c, y, w);
    } else if pc.WroteKeys? || pc.Rereading? {
      SeesStore(states, events, n, c, y, w);
    } else {
      StillSeen(states, events, n, c, states[n].calls[c].kid, y, w);
    }
  }

  /** A call with its story. */
  ghost predicate Follows(states: seq<State>, events: seq<Event>, n: nat, c: CallId, y: Story, w: Trail) {
    && n < |states| && c in states[n].calls
    && Fits(states[n].calls[c].pc, y) && Seen(states, events, n, c, states[n].calls[c].kid, y, w)
  }

  lemma OwnStepFits(s: State, c: CallId, s': State, y: Story)
    requires Inv(s) && c in s.calls && StepCall(s, c) == Some(s') && Fits(s.calls[c].pc, y)
    ensures c in s'.calls && s'.calls[c].kid == s.calls[c].kid && Records(s, c, s') && !s.calls[c].pc.Loading?
    ensures Fits(s'.calls[c].pc, After(y, s, s.calls[c].kid, s.calls[c].pc, Step(c)))
    ensures HoldsRead(s.calls[c].pc) ==> !MidStore(s)
  {
    var pc := s.calls[c].pc;
    StepMoves(s, c, s');
    assert CallData(s, s.calls[c]);
    StepRecords(s, c, s');
    if HoldsRead(pc) {
      ReadersSeeWholeSets(s, c);
    }
    if InKey(pc) {
      KeyFits(s, c, s', y);
    } else if InStore(pc) {
      StoreFits(s, c, s', y);
    } else {
      RefreshFits(s, c, s', y);
    }
  }

  lemma StandsStill(s: State, e: Event, s': State, c: CallId)
    requires Next(s, e) == Some(s') && c in s.calls && e != Step(c) && !(e.LoadEnds? && e.c == c)
    ensures c in s'.calls && s'.calls[c] == s.calls[c]
  {
    if e.Step? {
      StepMoves(s, e.c, s');
    }
  }

  lemma StoryStep(states: seq<State>, events: seq<Event>, n: nat, c: CallId, y: Story, w: Trail)
    returns (y': Story, w': Trail)
    requires IsRun(states, events) && n + 1 < |states| && Follows(states, events, n, c, y, w)
    ensures Follows(states, events, n + 1, c, y', w')
    ensures KeyCacheRates.Rank(states[n].calls[c].pc) < 15 ==>
              y'.isFresh == y.isFresh && y'.rechecked == y.rechecked && w'.recheck == w.recheck
  {
    var s, e, s' := states[n], events[n], states[n + 1];
    var kid, pc := s.calls[c].kid, s.calls[c].pc;
    assert Next(s, e) == Some(s');
    if e == Step(c) || (e.LoadEnds? && e.c == c) {
      y', w' := After(y, s, kid, pc, e), Longer(w, n, pc);
      if e.Step? {
        RunInv(states, events, n);
        OwnStepFits(s, c, s', y);
      }
      Sees(states, events, n, c, y, w);
    } else {
      y', w' := y, w;
      StandsStill(s, e, s', c);
      StillSeen(states, events, n, c, kid, y, w);
    }
  }

  lemma BeginsInvoked(s: State, e: Event, s': State, c: CallId)
    requires Next(s, e) == Some(s') && c !in s.calls && c in s'.calls
    ensures s'.calls[c].pc == Invoked
  {
    if e.Step? {
      OthersUntouched(s, e.c, s', c);
    }
  }

  lemma {:induction false} StoryOf(states: seq<State>, events: seq<Event>, n: nat, c: CallId)
    returns (y: Story, w: Trail)
    requires IsRun(states, events) && n < |states| && c in states[n].calls
    ensures Follows(states, events, n, c, y, w)
  {
    y, w := Story(None, None, None, None, None, false, false, None), Trail(0, 0, 0, 0, 0, 0, 0, 0);
    if n > 0 && c in states[n - 1].calls {
      y, w := StoryOf(states, events, n - 1, c);
      y, w := StoryStep(states, events, n - 1, c, y, w);
    } else if n > 0 {
      BeginsInvoked(states[n - 1], events[n - 1], states[n], c);
    }
  }

  /** In every interleaving, an answer is what the code owes to what the call has met. A fresh first read answers by its
      lookup. Otherwise refresh returns nil exactly when the cache is fresh under refreshMu or its own good load has
      been stored, and then a second lookup, after that, decides; an attempt in the last minute or a failed load,
      recorded as an attempt, answers ErrStaleKeys for an ID that the first lookup found, and else ErrUnknownKeyID or
      the error of the load. */
  lemma AnswerIsDecided(states: seq<State>, events: seq<Event>, n: nat, c: CallId, answer: KeyResult)
    returns (y: Story, w: Trail)
    requires IsRun(states, events) && n < |states| && Returned(states[n], c, answer)
    ensures Seen(states, events, n, c, states[n].calls[c].kid, y, w) && Owes(y, answer)
  {
    y, w := StoryOf(states, events, n, c);
  }

  /** Step j was the recheck of the call, and found the cache fresh. */
  ghost predicate FreshRecheck(states: seq<State>, events: seq<Event>, j: nat, c: CallId) {
    && j < |states| && j < |events| && events[j] == Step(c) && c in states[j].calls
    && states[j].calls[c].pc.Rechecking? && FreshIn(states[j])
  }

  /** A call never stands twice in the same place. */
  lemma {:induction false} MovesOn(states: seq<State>, events: seq<Event>, j: nat, n: nat, c: CallId)
    requires IsRun(states, events) && j < n < |states| && events[j] == Step(c) && c in states[j].calls
    ensures c in states[n].calls
    ensures KeyCacheRates.Rank(states[n].calls[c].pc) < KeyCacheRates.Rank(states[j].calls[c].pc)
  {
    if n == j + 1 {
      NextKeepsCalls(states[j], events[j], states[n], c);
      KeyCacheRates.RankFalls(states[j], events[j], states[n], c);
    } else {
      MovesOn(states, events, j, n - 1, c);
      NextKeepsCalls(states[n - 1], events[n - 1], states[n], c);
      KeyCacheRates.RankFalls(states[n - 1], events[n - 1], states[n], c);
    }
  }

  lemma OnlyOnce(states: seq<State>, events: seq<Event>, n: nat, i: nat, j: nat, c: CallId)
    requires IsRun(states, events) && Own(states, events, n, i, c) && Own(states, events, n, j, c)
    requires KeyCacheRates.Rank(states[i].calls[c].pc) == KeyCacheRates.Rank(states[j].calls[c].pc)
    ensures i == j
  {
    if i < j {
      MovesOn(states, events, i, j, c);
    } else if j < i {
      MovesOn(states, events, j, i, c);
    }
  }

  /** A call that reaches the recheck has found the cache stale before. */
  lemma StaleBefore(states: seq<State>, events: seq<Event>, j: nat, n: nat, c: CallId, y: Story, w: Trail)
    requires IsRun(states, events) && j < n < |states| && FreshRecheck(states, events, j, c)
    requires c in states[n].calls && Seen(states, events, n, c, states[n].calls[c].kid, y, w) && y.isFresh.Some?
    ensures y.isFresh == Some(false)
  {
    var u, v := StoryOf(states, events, j, c);
    OnlyOnce(states, events, n, v.test, w.test, c);
  }

  /** What a call answers that finds the cache fresh under refreshMu: by a lookup of its own, in a whole key set, after
      that. */
  lemma FreshRecheckDecides(states: seq<State>, events: seq<Event>, j: nat, n: nat, c: CallId, answer: KeyResult)
    requires IsRun(states, events) && j < n < |states| && FreshRecheck(states, events, j, c)
    requires Returned(states[n], c, answer)
    ensures exists k :: j < k < n && events[k] == Step(c) && !MidStore(states[k])
                        && match Entry(states[k].cache.keys, states[n].calls[c].kid)
                           case Some(key) => answer == Found(key)
                           case None => answer == UnknownKeyID
  {
    var y, w := AnswerIsDecided(states, events, n, c, answer);
    StaleBefore(states, events, j, n, c, y, w);
    OnlyOnce(states, events, n, j, w.recheck, c);
    assert j < w.again < n && events[w.again] == Step(c);
  }
}
