/** What each event of the challenge handler does, field by field. */
module ChallengeEffects {
  import opened Options
  import opened ChallengeProtocol
  import opened ChallengeSafety

  /** A solve begins: it is counted, its token is held in place of any other, and a captcha is asked for
      under a fresh number. */
  predicate Begins(s: State, t: State, token: Token) {
    t == s.(solving := s.solving + 1, challengeToken := Some(token), seqNumber := s.seqNumber + 1,
            handlers := s.handlers + {s.seqNumber},
            w := s.w.(status := Required, solves := s.w.solves[s.seqNumber := Asked], issued := s.w.issued + [token]))
  }

  /** Only a registered conversation with a token, while nothing is being solved and no rate limit is in
      effect. */
  lemma MaybeSolveExactly(s: State, c: Conversation)
    ensures var t := Step(s, MaybeSolve(c));
            if c in s.registered && s.registered[c].token.Some? && s.solving <= 0 && s.rateLimitRetryAt == 0
            then Begins(s, t, s.registered[c].token.value) else t == s
  {
  }

  /** What starting the queues of `ids` leaves of solves, clock and limits: all of it. */
  predicate OnlyQueues(s: State, t: State) {
    t == s.(registered := t.registered, startTimers := t.startTimers, pendingStarts := t.pendingStarts,
            w := s.w.(storage := t.w.storage, status := t.w.status, started := t.w.started))
  }

  /** The queues of `ids` are started: each of them once, and what is left is stored. Or all are parked. */
  predicate Starts(s: State, t: State, ids: set<Conversation>) {
    && OnlyQueues(s, t)
    && if s.isOnline then
         && t.registered.Keys == s.registered.Keys - ids && (forall c | c in t.registered :: t.registered[c] == s.registered[c])
         && t.startTimers.Keys == s.startTimers.Keys - ids && (forall c | c in t.startTimers :: t.startTimers[c] == s.startTimers[c])
         && t.pendingStarts == s.pendingStarts - ids && t.w.started == s.w.started + multiset(ids)
         && t.w.storage == (if ids == {} then s.w.storage else t.registered)
         && t.w.status == if ids != {} && t.registered == map[] then Idle else s.w.status
       else
         t == s.(pendingStarts := s.pendingStarts + ids)
  }

  lemma QueuesStart(s: State, ids: set<Conversation>)
    ensures Starts(s, StartQueues(s, ids), ids)
  {
    if ids == {} {
      assert s.w.started + multiset{} == s.w.started && s.pendingStarts - {} == s.pendingStarts;
      assert s.registered.Keys - {} == s.registered.Keys && s.startTimers.Keys - {} == s.startTimers.Keys;
    }
  }

  // ---------- registration ----------

  /** Known ones are ignored. One whose time is past is started at once, or parked. Any other gets a timer,
      for the rate limit when there is one and else for its own time, and a solve begins unless captchas
      are not offered, there is no token, or it is silent. */
  lemma RegisterExactly(s: State, c: Challenge, offered: bool)
    requires s.isLoaded
    ensures var t := Step(s, Register(c, offered));
            var id := c.conversation;
            var added := s.registered[id := c];
            if id in s.registered then t == s
            else if c.retryAt > 0 && c.retryAt <= s.w.now then
              Starts(s.(registered := added, w := s.w.(storage := added)), t, {id})
            else
              var time := if s.rateLimitRetryAt > 0 then s.rateLimitRetryAt else c.retryAt;
              var timed := s.(registered := added, w := s.w.(storage := added),
                              startTimers := if time == 0 then s.startTimers
                                             else s.startTimers[id := if time > s.w.now then time else s.w.now]);
              if offered && c.token.Some? && !c.silent then Begins(timed, t, c.token.value) else t == timed
  {
    hide StartQueues, Starts;
    QueuesStart(Added(s, c), {c.conversation});
  }

  /** It leaves the three collections and the storage. */
  lemma UnregisterExactly(s: State, id: Conversation)
    requires s.isLoaded
    ensures var t := Step(s, Unregister(id));
            && t.registered.Keys == s.registered.Keys - {id}
            && (forall c | c in t.registered :: t.registered[c] == s.registered[c])
            && t.startTimers.Keys == s.startTimers.Keys - {id}
            && (forall c | c in t.startTimers :: t.startTimers[c] == s.startTimers[c])
            && t.pendingStarts == s.pendingStarts - {id} && t.w.storage == t.registered
            && t.w.started == s.w.started && t.w.status == s.w.status && OnlyQueues(s, t)
  {
  }

  // ---------- times ----------

  /** Every registered conversation gets the new time and a timer for it, at once if it is past; the storage
      is not written. */
  predicate WaitsFor(s: State, t: State, retryAt: nat) {
    && t == s.(rateLimitRetryAt := retryAt, registered := t.registered, startTimers := t.startTimers)
    && t.registered.Keys == s.registered.Keys
    && (forall c | c in s.registered :: t.registered[c] == s.registered[c].(retryAt := retryAt))
    && t.startTimers.Keys == s.startTimers.Keys + s.registered.Keys
    && (forall c | c in t.startTimers ::
          t.startTimers[c] == if c !in s.registered then s.startTimers[c] else if retryAt > s.w.now then retryAt else s.w.now)
  }

  lemma ForceWaitExactly(s: State, retryAt: nat)
    ensures WaitsFor(s, Step(s, ForceWaitOnAll(retryAt)), retryAt)
  {
  }

  lemma ScheduleExactly(s: State, id: Conversation, retryAt: nat)
    requires s.isLoaded
    ensures Step(s, ScheduleRetry(id, retryAt))
         == s.(startTimers := s.startTimers[id := if retryAt > s.w.now then retryAt else s.w.now])
  {
  }

  /** The timer that fires is gone, the rate limit is over, and its queue is started or parked. */
  lemma FiringExactly(s: State, id: Conversation)
    requires id in s.startTimers && s.startTimers[id] <= s.w.now
    ensures Starts(s.(startTimers := s.startTimers - {id}, rateLimitRetryAt := 0), Step(s, TimerFires(id)), {id})
  {
    hide StartQueues, Starts;
    QueuesStart(s.(startTimers := s.startTimers - {id}, rateLimitRetryAt := 0), {id});
  }

  // ---------- the connection ----------

  function TimeIsPast(s: State): set<Conversation> { set c | c in s.registered && 0 < s.registered[c].retryAt <= s.w.now }

  /** Parked conversations are forgotten, and those whose time is past are started. */
  lemma OnlineExactly(s: State)
    ensures Starts(s.(isOnline := true, pendingStarts := {}), Step(s, OnOnline), TimeIsPast(s))
    ensures Step(s, OnOffline) == s.(isOnline := false)
  {
    hide StartQueues, Starts;
    var t := s.(isOnline := true, pendingStarts := {});
    assert ReadyOnes(t) == TimeIsPast(s);
    QueuesStart(t, ReadyOnes(t));
  }

  // ---------- solves ----------

  /** A request gets a fresh number, and its handler. */
  lemma RequestExactly(s: State, delay: nat)
    ensures Step(s, RequestCaptcha) == s.(handlers := s.handlers + {s.seqNumber}, seqNumber := s.seqNumber + 1)
    ensures Step(s, TimePasses(delay)) == s.(w := s.w.(now := s.w.now + delay))
  {
  }

  /** A response is taken once, and by the solve that asked for it. */
  lemma ResponseExactly(s: State, q: nat)
    ensures var t := Step(s, OnResponse(q));
            if q !in s.handlers then t == s
            else t == s.(handlers := s.handlers - {q},
                         w := s.w.(solves := if q in s.w.solves then s.w.solves[q := Answered] else s.w.solves))
  {
  }

  /** The held token is sent, once; a solve that finds none is over. */
  lemma ResumeExactly(s: State, q: nat)
    requires q in s.w.solves && s.w.solves[q] == Answered
    ensures var t := Step(s, Resume(q));
            if s.challengeToken.None? then t == s.(solving := s.solving - 1, w := s.w.(solves := s.w.solves - {q}))
            else t == s.(challengeToken := None,
                         w := s.w.(status := Pending, solves := s.w.solves[q := Sending],
                                   sent := s.w.sent + [s.challengeToken.value]))
  {
  }

  /** A captcha that is accepted starts every registered conversation, one that is refused makes every one
      wait; in both cases the solve is over. */
  lemma AnswerExactly(s: State, q: nat, retryAfter: nat)
    requires q in s.w.solves && s.w.solves[q] == Sending
    ensures var over := s.(solving := s.solving - 1, w := s.w.(solves := s.w.solves - {q}, status := Idle));
            && Starts(over, Step(s, ServerAccepts(q)), s.registered.Keys)
            && WaitsFor(over, Step(s, ServerRefuses(q, retryAfter)), retryAfter + s.w.now)
  {
    hide StartQueues, Starts, WaitOnAll, WaitsFor;
    QueuesStart(Ended(s, q), s.registered.Keys);
    WaitingIs(Ended(s, q), retryAfter + s.w.now);
  }

  lemma WaitingIs(s: State, retryAt: nat)
    ensures WaitsFor(s, WaitOnAll(s, retryAt), retryAt)
  {
  }
}
