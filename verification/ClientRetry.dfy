/** The client's retry loop, and what it adds up to against a signerd. */
module ClientRetry {
  import opened Common
  import opened TokenProtocol
  import opened TokenTheorems
  import Server

  const RETRY_DELAY: int := 5 * SECOND
  const DEFAULT_TIMEOUT: int := 300 * SECOND

  /** What one POST of the artifact comes to. */
  datatype Outcome =
    | Delivered(signed: seq<Byte>)
    | Status(code: int)
    | TransportFailed(permanent: bool)
    | BodyFailed                          // a 200 whose body could not be read
    | BuildFailed                         // the request could not be made

  /** The verdict of signOnce on a failure. */
  predicate WorthRetrying(o: Outcome) {
    match o
    case Status(code) => code != 200 && Retryable(code)
    case TransportFailed(permanent) => !permanent
    case BodyFailed => true
    case Delivered(_) => false
    case BuildFailed => false
  }

  datatype Field = FilenameField | NameField | URLField

  datatype Reply =
    | SignedBytes(signed: seq<Byte>)
    | BadHeader(field: Field)
    | WaitCanceled
    | LastError(outcome: Outcome)

  /** No control characters but the tab, and no DEL. */
  predicate ValidHeaderValue(value: string) {
    forall i :: 0 <= i < |value| ==> (value[i] as int >= 0x20 || value[i] == '\t') && value[i] as int != 0x7f
  }

  /** What a header value may hold, by ASCII code: the tab, the printable characters, and everything above DEL. */
  ghost predicate Sendable(value: string) {
    forall c :: c in value ==> c as int == 9 || 32 <= c as int < 127 || 127 < c as int
  }

  /** The first of three values that cannot be sent. */
  ghost function BadField(filename: string, name: string, url: string): Option<Field> {
    if !Sendable(filename) then Some(FilenameField)
    else if !Sendable(name) then Some(NameField)
    else if !Sendable(url) then Some(URLField)
    else None
  }

  lemma ValidIsSendable(value: string)
    ensures ValidHeaderValue(value) <==> Sendable(value)
  {
    assert forall i :: 0 <= i < |value| ==> value[i] in value;
  }

  /** The world of one call: what attempt k comes to, how long it takes, and whether the wait before it ends
      with the context and not with the timer. */
  datatype World = World(outcome: nat -> Outcome, takes: nat -> nat, canceled: nat -> bool)

  /** What is worth another attempt, in plain terms: a gateway's or a busy server's status, a transport failure that is
      not permanent, and a body that broke off. */
  predicate Temporary(o: Outcome) {
    o in {Status(502), Status(503), Status(504), TransportFailed(false), BodyFailed}
  }

  /** How the call ends after `made` attempts, the last of which is attempt `made - 1`. */
  ghost predicate Ends(retries: nat, world: World, made: nat, reply: Reply) {
    && 1 <= made <= retries + 1
    && (forall k: nat :: k < made - 1 ==> Temporary(world.outcome(k)))
    && (forall k: nat :: 1 <= k < made ==> !world.canceled(k))
    && var last := world.outcome(made - 1);
       && (last.Delivered? ==> reply == SignedBytes(last.signed))
       && (!last.Delivered? && Temporary(last) && made <= retries ==> world.canceled(made) && reply == WaitCanceled)
       && (!last.Delivered? && (!Temporary(last) || made == retries + 1) ==> reply == LastError(last))
  }

  /** The world alone decides how a call ends. */
  lemma EndIsUnique(retries: nat, world: World, made: nat, reply: Reply, made': nat, reply': Reply)
    requires Ends(retries, world, made, reply) && Ends(retries, world, made', reply')
    ensures made == made' && reply == reply'
  {
    EndIsNoLater(retries, world, made, reply, made', reply');
    EndIsNoLater(retries, world, made', reply', made, reply);
  }

  lemma EndIsNoLater(retries: nat, world: World, made: nat, reply: Reply, made': nat, reply': Reply)
    requires Ends(retries, world, made, reply) && Ends(retries, world, made', reply')
    ensures made' <= made
  {
    var k: nat := made - 1;
    assert made < made' ==> Temporary(world.outcome(k)) && !world.canceled(made);
  }

  /** Every attempt after the first starts a full delay after the one before it has come to its outcome. */
  ghost predicate Spaced(starts: seq<int>, world: World) {
    forall k: nat :: k < |starts| - 1 ==> starts[k] + world.takes(k) + 5_000_000_000 <= starts[k + 1]
  }

  lemma SpacedGrows(starts: seq<int>, world: World, clock: int)
    requires Spaced(starts, world)
    requires starts != [] ==> starts[|starts| - 1] + world.takes(|starts| - 1) + RETRY_DELAY <= clock
    ensures Spaced(starts + [clock], world)
  {
  }

  /** The connection that one call of Sign uses: it posts, and it waits between posts. */
  class Wire {
    const world: World
    var clock: int
    /** The instants at which the artifact was posted. */
    var posts: seq<int>

    constructor (world: World, now: int)
      ensures this.world == world && posts == [] && clock == now
    {
      this.world := world;
      clock, posts := now, [];
    }

    method Post() returns (outcome: Outcome)
      modifies this
      ensures outcome == world.outcome(|old(posts)|) && posts == old(posts) + [old(clock)]
      ensures clock == old(clock) + world.takes(|old(posts)|)
    {
      outcome := world.outcome(|posts|);
      posts, clock := posts + [clock], clock + world.takes(|posts|);
    }

    /** The select between the end of the context and the timer. */
    method Wait() returns (canceled: bool)
      modifies this`clock
      ensures canceled == world.canceled(|posts|) && clock >= old(clock) + if canceled then 0 else RETRY_DELAY
    {
      canceled := world.canceled(|posts|);
      var late: int :| late >= 0;
      clock := clock + late + if canceled then 0 else RETRY_DELAY;
    }
  }

  class Client {
    const retries: nat
    const timeout: int

    /** The counts that New installs: a negative one would skip the loop, or never time out. */
    constructor (retries: int, timeout: int)
      ensures this.retries == if retries > 0 then retries else 0
      ensures this.timeout == if timeout > 0 then timeout else 300_000_000_000
    {
      this.retries := if retries < 0 then 0 else retries;
      this.timeout := if timeout <= 0 then DEFAULT_TIMEOUT else timeout;
    }

    method ValidateHeaders(filename: string, name: string, url: string) returns (bad: Option<Field>)
      ensures bad == BadField(filename, name, url)
    {
      ValidIsSendable(filename);
      ValidIsSendable(name);
      ValidIsSendable(url);
      var fields := [(FilenameField, filename), (NameField, name), (URLField, url)];
      for i := 0 to |fields|
        invariant 0 < i ==> ValidHeaderValue(filename)
        invariant 1 < i ==> ValidHeaderValue(name)
        invariant 2 < i ==> ValidHeaderValue(url)
      {
        if !ValidHeaderValue(fields[i].1) {
          return Some(fields[i].0);
        }
      }
      return None;
    }

    /** Metadata that cannot be sent costs no attempt. Otherwise the call ends as `Ends` says. */
    method Sign(wire: Wire, filename: string, name: string, url: string) returns (reply: Reply)
      requires wire.posts == []
      modifies wire
      ensures BadField(filename, name, url).Some? ==>
                reply == BadHeader(BadField(filename, name, url).value) && wire.posts == []
      ensures BadField(filename, name, url).None? ==> Ends(retries, wire.world, |wire.posts|, reply)
      ensures Spaced(wire.posts, wire.world)
    {
      var bad := ValidateHeaders(filename, name, url);
      if bad.Some? {
        return BadHeader(bad.value);
      }
      var last: Option<Outcome> := None;
      var attempt := 0;
      while attempt <= retries
        invariant attempt == |wire.posts| <= retries + 1
        invariant attempt == 0 <==> last.None?
        invariant attempt > 0 ==> last == Some(wire.world.outcome(attempt - 1))
        invariant forall k: nat :: k < attempt ==> Temporary(wire.world.outcome(k))
        invariant forall k: nat :: 1 <= k < attempt ==> !wire.world.canceled(k)
        invariant Spaced(wire.posts, wire.world)
        invariant attempt > 0 ==> wire.posts[attempt - 1] + wire.world.takes(attempt - 1) <= wire.clock
      {
        if attempt > 0 {
          var canceled := wire.Wait();
          if canceled {
            return WaitCanceled;
          }
        }
        SpacedGrows(wire.posts, wire.world, wire.clock);
        var outcome := wire.Post();
        if outcome.Delivered? {
          return SignedBytes(outcome.signed);
        }
        last := Some(outcome);
        if !WorthRetrying(outcome) {
          break;
        }
        attempt := attempt + 1;
      }
      reply := LastError(last.value);
    }
  }

  // ---------------------------------------------------------------- against a signerd

  /** Attempt k reached handler `via`, if it reached the server, and its outcome is what that handler sent;
      a failure of the transport or of the body says nothing about the handler. */
  ghost predicate Answered(s: State, o: Outcome, via: Option<HandlerId>) {
    && (via.Some? ==> via.value in s.handlers)
    && (o.Status? ==> via.Some? && Sent(s.handlers[via.value].pc) == Some(o.code))
    && (o.Delivered? ==> via.Some? && Sent(s.handlers[via.value].pc) == Some(200))
    && (o.BuildFailed? ==> via.None?)
  }

  predicate Lost(o: Outcome) {
    o.TransportFailed? || o.BodyFailed?
  }

  /** The calls of Signer.Sign that the first `n` attempts caused. */
  ghost function Signatures(s: State, via: nat -> Option<HandlerId>, n: nat): nat {
    if n == 0 then 0
    else Signatures(s, via, n - 1)
         + if via(n - 1).Some? && via(n - 1).value in s.handlers then s.handlers[via(n - 1).value].signs else 0
  }

  /** The attempts among the first `n` whose reply the client never saw whole. */
  ghost function LostReplies(world: World, n: nat): nat {
    if n == 0 then 0 else LostReplies(world, n - 1) + if Lost(world.outcome(n - 1)) then 1 else 0
  }

  lemma {:induction false} RetriedAttempts(cfg: Config, states: seq<State>, events: seq<Event>, n: nat,
                                           world: World, via: nat -> Option<HandlerId>, m: nat)
    requires IsRun(cfg, states, events) && n < |states|
    requires forall k: nat :: k < m ==> Answered(states[n], world.outcome(k), via(k)) && Temporary(world.outcome(k))
    ensures Signatures(states[n], via, m) <= LostReplies(world, m)
  {
    if m > 0 {
      RetriedAttempts(cfg, states, events, n, world, via, m - 1);
      assert Answered(states[n], world.outcome(m - 1), via(m - 1)) && Temporary(world.outcome(m - 1));
      if via(m - 1).Some? {
        StatusTellsSignCount(cfg, states, events, n, via(m - 1).value);
      }
    }
  }

  /** One call of Client.Sign against a signerd that any number of other clients use: a file is signed once more
      than replies are lost on the way, at most. With no reply lost it is signed at most once, and exactly once
      when the client has the signed bytes. */
  lemma OneCallSignsOnce(cfg: Config, states: seq<State>, events: seq<Event>, n: nat,
                         world: World, via: nat -> Option<HandlerId>, retries: nat, made: nat, reply: Reply)
    requires IsRun(cfg, states, events) && n < |states|
    requires Ends(retries, world, made, reply)
    requires forall k: nat :: k < made ==> Answered(states[n], world.outcome(k), via(k))
    ensures Signatures(states[n], via, made) <= 1 + LostReplies(world, made - 1)
    ensures reply.SignedBytes? ==> Signatures(states[n], via, made) >= 1
    ensures LostReplies(world, made) == 0 && reply.LastError?
            && (reply.outcome.Status? ==> reply.outcome.code in {502, 503, 504}) ==>
              Signatures(states[n], via, made) == 0
    ensures LostReplies(world, made) == 0 && reply.WaitCanceled? ==> Signatures(states[n], via, made) == 0
  {
    RetriedAttempts(cfg, states, events, n, world, via, made - 1);
    assert Answered(states[n], world.outcome(made - 1), via(made - 1));
    if via(made - 1).Some? {
      StatusTellsSignCount(cfg, states, events, n, via(made - 1).value);
    }
  }

  // ---------------------------------------------------------------- the bound is reached

  lemma LeadsOn(cfg: Config, s0: State, es: seq<Event>, s1: State, es': seq<Event>, s2: State)
    requires Server.Leads(cfg, s0, es, s1) && Server.Leads(cfg, s1, es', s2)
    ensures Server.Leads(cfg, s0, es + es', s2)
  {
    var p :| Server.IsPath(cfg, p, es) && p[0] == s0 && p[|es|] == s1;
    var q :| Server.IsPath(cfg, q, es') && q[0] == s1 && q[|es'|] == s2;
    var r := p + q[1..];
    forall i | 0 <= i < |es + es'| ensures Next(cfg, r[i], (es + es')[i]) == Some(r[i + 1]) {
      Joined(p, es, q, es', i);
    }
    assert Server.IsPath(cfg, r, es + es') && r[0] == s0 && r[|es + es'|] == s2;
  }

  /** Where the events of two paths come from that are put together. */
  lemma Joined(p: seq<State>, es: seq<Event>, q: seq<State>, es': seq<Event>, i: nat)
    requires |p| == |es| + 1 && |q| == |es'| + 1 && p[|es|] == q[0] && i < |es| + |es'|
    ensures var r := p + q[1..];
            if i < |es| then r[i] == p[i] && (es + es')[i] == es[i] && r[i + 1] == p[i + 1]
            else r[i] == q[i - |es|] && (es + es')[i] == es'[i - |es|] && r[i + 1] == q[i - |es| + 1]
  {
  }

  /** A quiet server that has signed for handlers 0 to m - 1. */
  ghost predicate SignedFor(s: State, m: nat) {
    && s.token == 0 && s.uploads == 0
    && (forall h: nat :: h in s.handlers <==> h < m)
    && forall h: nat :: h < m ==> s.handlers[h].pc == Done(SignReply(200)) && s.handlers[h].signs == 1
  }

  lemma OneMoreSign(cfg: Config, s: State, m: nat) returns (es: seq<Event>, s': State)
    requires SignedFor(s, m)
    ensures Server.Leads(cfg, s, es, s') && SignedFor(s', m + 1)
  {
    var w := Server.SignWorld(true, Accepted, false, Server.SignReturned(true), true);
    es, s' := Server.SoloSign(cfg, s, m, w);
    assert s'.handlers[m].pc == Done(SignReply(200)) && s'.handlers[m].signs == 1;
  }

  lemma {:induction false} ManySign(cfg: Config, m: nat) returns (es: seq<Event>, s: State)
    ensures Server.Leads(cfg, Init(0), es, s) && SignedFor(s, m)
  {
    es, s := [], Init(0);
    Server.Start(cfg, s);
    if m > 0 {
      es, s := ManySign(cfg, m - 1);
      var es', s' := OneMoreSign(cfg, s, m - 1);
      LeadsOn(cfg, Init(0), es, s, es', s');
      es, s := es + es', s';
    }
  }

  ghost function Unlucky(retries: nat): World {
    World(k => if k < retries then BodyFailed else Delivered([]), k => 0, k => false)
  }

  lemma {:induction false} CountUnlucky(s: State, retries: nat, total: nat, m: nat)
    requires SignedFor(s, total) && m <= total
    ensures Signatures(s, k => Some(k), m) == m
    ensures m <= retries ==> LostReplies(Unlucky(retries), m) == m
  {
    if m > 0 {
      CountUnlucky(s, retries, total, m - 1);
    }
  }

  /** Lost replies do cost signatures: for every retry count there is a run in which a single call has the file
      signed once for each attempt. */
  lemma LostRepliesSignAgain(cfg: Config, retries: nat) returns (es: seq<Event>, s: State)
    ensures Server.Leads(cfg, Init(0), es, s)
    ensures Ends(retries, Unlucky(retries), retries + 1, SignedBytes([]))
    ensures forall k: nat :: k < retries + 1 ==> Answered(s, Unlucky(retries).outcome(k), Some(k))
    ensures LostReplies(Unlucky(retries), retries) == retries
    ensures Signatures(s, k => Some(k), retries + 1) == 1 + retries
  {
    es, s := ManySign(cfg, retries + 1);
    CountUnlucky(s, retries, retries + 1, retries);
    CountUnlucky(s, retries, retries + 1, retries + 1);
  }
}
