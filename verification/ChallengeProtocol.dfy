/** The challenge handler as a state machine: conversations that wait for a time or a captcha, their
    timers, and captcha solves that overlap. A transition is one call of a public method, one timer,
    or one continuation of a solve behind an await. */
module ChallengeProtocol {
  import opened Options

  type Conversation = nat
  type Token = nat

  /** `retryAt` 0 is no time: the source takes 0 and a missing value alike. */
  datatype Challenge = Challenge(
    conversation: Conversation, createdAt: nat, retryAt: nat, token: Option<Token>, silent: bool)

  /** A solve waits for the captcha, is about to go on with it, or waits for the server. */
  datatype Phase = Asked | Answered | Sending

  datatype Status = Idle | Required | Pending

  type Registered = map<Conversation, Challenge>

  /** The surroundings: clock, storage, and what happened so far. `issued` and `sent` are the tokens
      of the solves begun and of the responses sent, `started` the queues started. */
  datatype World = World(
    now: nat, storage: Registered, status: Status, solves: map<nat, Phase>,
    issued: seq<Token>, sent: seq<Token>, started: multiset<Conversation>)

  datatype State = State(
    solving: int, isLoaded: bool, challengeToken: Option<Token>, seqNumber: nat, isOnline: bool, rateLimitRetryAt: nat,
    handlers: set<nat>, registered: Registered, startTimers: map<Conversation, nat>, pendingStarts: set<Conversation>,
    w: World)

  datatype Event =
    | Load(order: seq<Conversation>, expireAfter: nat)
    | OnOffline
    | OnOnline
    | MaybeSolve(conversation: Conversation)
    | ScheduleRetry(conversation: Conversation, retryAt: nat)
    | ForceWaitOnAll(retryAt: nat)
    | Register(challenge: Challenge, captchaOffered: bool)
    | Unregister(conversation: Conversation)
    | RequestCaptcha
    | OnResponse(seqNumber: nat)
    | Resume(seqNumber: nat)
    | ServerAccepts(seqNumber: nat)
    | ServerRefuses(seqNumber: nat, retryAfter: nat)
    | TimerFires(conversation: Conversation)
    | TimePasses(delay: nat)

  const DEFAULT_EXPIRE_AFTER := 24 * 3600 * 1000

  /** `shouldStartQueue` */
  predicate Ready(c: Challenge, now: nat) { c.retryAt > 0 && c.retryAt <= now }

  function ReadyOnes(s: State): set<Conversation> {
    set c | c in s.registered && Ready(s.registered[c], s.w.now)
  }

  // ---------- parts of the transitions ----------

  function Persisted(s: State): State {
    s.(w := s.w.(storage := s.registered))
  }

  function Unregistered(s: State, ids: set<Conversation>): State {
    Persisted(s.(registered := s.registered - ids, startTimers := s.startTimers - ids, pendingStarts := s.pendingStarts - ids))
  }

  /** `#startQueue` for each of `ids`: parked while offline. */
  function StartQueues(s: State, ids: set<Conversation>): State {
    if !s.isOnline then s.(pendingStarts := s.pendingStarts + ids)
    else if ids == {} then s
    else
      var t := Unregistered(s, ids);
      t.(w := t.w.(started := t.w.started + multiset(ids), status := if t.registered == map[] then Idle else t.w.status))
  }

  /** A timer for a time in the past fires at once. */
  function Due(retryAt: nat, now: nat): nat { if retryAt > now then retryAt else now }

  function Scheduled(s: State, c: Conversation, retryAt: nat): State {
    s.(startTimers := s.startTimers[c := Due(retryAt, s.w.now)])
  }

  function WaitOnAll(s: State, retryAt: nat): State {
    s.(rateLimitRetryAt := retryAt,
       registered := map c | c in s.registered :: s.registered[c].(retryAt := retryAt),
       startTimers := s.startTimers + map c | c in s.registered :: Due(retryAt, s.w.now))
  }

  /** `#solve` up to its first await. */
  function BeginSolve(s: State, token: Token): State {
    s.(solving := s.solving + 1, challengeToken := Some(token), seqNumber := s.seqNumber + 1,
       handlers := s.handlers + {s.seqNumber},
       w := s.w.(status := Required, solves := s.w.solves[s.seqNumber := Asked], issued := s.w.issued + [token]))
  }

  function Added(s: State, c: Challenge): State {
    Persisted(s.(registered := s.registered[c.conversation := c]))
  }

  /** The timer a new challenge gets: the rate limit goes before its own time. */
  function Timed(s: State, c: Challenge): State {
    if s.rateLimitRetryAt > 0 then Scheduled(s, c.conversation, s.rateLimitRetryAt)
    else if c.retryAt > 0 then Scheduled(s, c.conversation, c.retryAt) else s
  }

  function Registering(s: State, c: Challenge, captchaOffered: bool): State {
    if c.conversation in s.registered then s
    else
      var s1 := Added(s, c);
      if Ready(c, s.w.now) then StartQueues(s1, {c.conversation})
      else
        var s2 := Timed(s1, c);
        if captchaOffered && c.token.Some? && !c.silent then BeginSolve(s2, c.token.value) else s2
  }

  predicate Expired(c: Challenge, expireAfter: nat, now: nat) {
    c.createdAt <= now - if expireAfter == 0 then DEFAULT_EXPIRE_AFTER else expireAfter
  }

  /** `stored` is read once; every registration writes the storage anew. */
  function Loading(s: State, stored: Registered, order: seq<Conversation>, expireAfter: nat): State
    requires forall c | c in order :: c in stored
    decreases |order|
  {
    if order == [] then s
    else
      assert order[0] in order;
      var c := stored[order[0]];
      Loading(if Expired(c, expireAfter, s.w.now) then s else Registering(s, c, true), stored, order[1..], expireAfter)
  }

  function Resumed(s: State, q: nat): State {
    if s.challengeToken.None? then s.(solving := s.solving - 1, w := s.w.(solves := s.w.solves - {q}))
    else
      s.(challengeToken := None,
         w := s.w.(status := Pending, solves := s.w.solves[q := Sending], sent := s.w.sent + [s.challengeToken.value]))
  }

  /** The solve is over. */
  function Ended(s: State, q: nat): State {
    s.(solving := s.solving - 1, w := s.w.(solves := s.w.solves - {q}, status := Idle))
  }

  function Fired(s: State, c: Conversation): State {
    StartQueues(s.(startTimers := s.startTimers - {c}, rateLimitRetryAt := 0), {c})
  }

  function MaybeSolving(s: State, c: Conversation): State {
    if c in s.registered && s.solving <= 0 && s.rateLimitRetryAt == 0 && s.registered[c].token.Some?
    then BeginSolve(s, s.registered[c].token.value) else s
  }

  function Responded(s: State, q: nat): State {
    if q !in s.handlers then s
    else
      s.(handlers := s.handlers - {q},
         w := if q in s.w.solves then s.w.(solves := s.w.solves[q := Answered]) else s.w)
  }

  // ---------- transitions ----------

  predicate Distinct(order: seq<Conversation>) {
    forall i, j :: 0 <= i < j < |order| ==> order[i] != order[j]
  }

  /** What is persisted needs a loaded handler. */
  predicate Enabled(s: State, e: Event) {
    match e
    case Load(order, _) => Distinct(order) && (set c | c in order) == s.w.storage.Keys
    case Register(_, _) => s.isLoaded
    case Unregister(_) => s.isLoaded
    case ScheduleRetry(_, _) => s.isLoaded
    case Resume(q) => q in s.w.solves && s.w.solves[q] == Answered
    case ServerAccepts(q) => q in s.w.solves && s.w.solves[q] == Sending
    case ServerRefuses(q, _) => q in s.w.solves && s.w.solves[q] == Sending
    case TimerFires(c) => c in s.startTimers && s.startTimers[c] <= s.w.now
    case _ => true
  }

  function Step(s: State, e: Event): State
    requires Enabled(s, e)
  {
    match e
    case Load(order, expireAfter) =>
      if s.isLoaded then s else Loading(s.(isLoaded := true), s.w.storage, order, expireAfter)
    case OnOffline => s.(isOnline := false)
    case OnOnline =>
      var t := s.(isOnline := true, pendingStarts := {});
      StartQueues(t, ReadyOnes(t))
    case MaybeSolve(c) => MaybeSolving(s, c)
    case ScheduleRetry(c, retryAt) => Scheduled(s, c, retryAt)
    case ForceWaitOnAll(retryAt) => WaitOnAll(s, retryAt)
    case Register(c, captchaOffered) => Registering(s, c, captchaOffered)
    case Unregister(c) => Unregistered(s, {c})
    case RequestCaptcha => s.(handlers := s.handlers + {s.seqNumber}, seqNumber := s.seqNumber + 1)
    case OnResponse(q) => Responded(s, q)
    case Resume(q) => Resumed(s, q)
    case ServerAccepts(q) =>
      var t := Ended(s, q);
      StartQueues(t, t.registered.Keys)
    case ServerRefuses(q, retryAfter) => WaitOnAll(Ended(s, q), retryAfter + s.w.now)
    case TimerFires(c) => Fired(s, c)
    case TimePasses(delay) => s.(w := s.w.(now := s.w.now + delay))
  }

  predicate Runs(s: State, es: seq<Event>)
    decreases |es|
  {
    es == [] || (Enabled(s, es[0]) && Runs(Step(s, es[0]), es[1..]))
  }

  function Exec(s: State, es: seq<Event>): State
    requires Runs(s, es)
    decreases |es|
  {
    if es == [] then s else Exec(Step(s, es[0]), es[1..])
  }

  // ---------- invariants ----------

  function Held(s: State): multiset<Token> {
    if s.challengeToken.Some? then multiset{s.challengeToken.value} else multiset{}
  }

  /** The counter counts the solves in flight; those that wait for a captcha have a handler. */
  ghost predicate Counted(solving: int, seqNumber: nat, handlers: set<nat>, solves: map<nat, Phase>) {
    && solving == |solves|
    && (forall q | q in handlers :: q < seqNumber)
    && (forall q | q in solves :: q < seqNumber && (q in handlers <==> solves[q] == Asked))
  }

  ghost predicate CountInv(s: State) {
    Counted(s.solving, s.seqNumber, s.handlers, s.w.solves)
  }

  /** Tokens are sent at most as often as they were issued, and the held one is the newest. */
  ghost predicate TokenInv(s: State) {
    && multiset(s.w.sent) + Held(s) <= multiset(s.w.issued)
    && (s.challengeToken.Some? ==> s.w.issued != [] && s.challengeToken.value == s.w.issued[|s.w.issued| - 1])
  }

  ghost predicate SolveInv(s: State) { CountInv(s) && TokenInv(s) }

  /** Nothing waits before the challenges are loaded. */
  ghost predicate LoadInv(s: State) {
    !s.isLoaded ==> s.registered == map[] && s.startTimers == map[] && s.pendingStarts == {} && s.w.solves == map[]
  }

  ghost predicate Named(registered: Registered) {
    forall c | c in registered :: registered[c].conversation == c
  }
}
