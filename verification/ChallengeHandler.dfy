/** The challenge handler object. Its methods are what the source runs between two awaits; the ghost
    field `world` holds clock, storage, status, and the solves that wait. */
module ChallengeHandler {
  import opened Options
  import opened ChallengeProtocol
  import opened ChallengeSafety
  import opened ChallengeRuns

  class ChallengeHandler {
    var solving: int
    var isLoaded: bool
    var challengeToken: Option<Token>
    var seqNumber: nat
    var isOnline: bool
    var challengeRateLimitRetryAt: nat
    var responseHandlers: set<nat>
    var registeredConversations: Registered
    var startTimers: map<Conversation, nat>
    var pendingStarts: set<Conversation>
    ghost var world: World

    ghost function View(): State
      reads this
    {
      State(solving, isLoaded, challengeToken, seqNumber, isOnline, challengeRateLimitRetryAt, responseHandlers,
            registeredConversations, startTimers, pendingStarts, world)
    }

    constructor (ghost storage: Registered, ghost now: nat)
      ensures RunInv(View()) && !isLoaded && world.storage == storage
    {
      solving, isLoaded, challengeToken, seqNumber, isOnline := 0, false, None, 0, false;
      challengeRateLimitRetryAt, responseHandlers := 0, {};
      registeredConversations, startTimers, pendingStarts := map[], map[], {};
      world := World(now, storage, Idle, map[], [], [], multiset{});
    }

    method Persist()
      requires isLoaded
      modifies this`world
      ensures View() == Persisted(old(View()))
    {
      assert isLoaded;  // 'ChallengeHandler has to be loaded before persisting new data'
      world := world.(storage := registeredConversations);
    }

    method Unregister(c: Conversation)
      requires isLoaded
      modifies this
      ensures View() == Step(old(View()), ChallengeProtocol.Unregister(c)) && isLoaded
      ensures old(RunInv(View())) ==> RunInv(View())
    {
      hide RunInv;
      if RunInv(View()) { StepKeepsRunInv(View(), ChallengeProtocol.Unregister(c)); }
      registeredConversations := registeredConversations - {c};
      pendingStarts := pendingStarts - {c};
      startTimers := startTimers - {c};
      Persist();
    }

    method StartQueue(c: Conversation)
      requires isLoaded
      modifies this
      ensures View() == StartQueues(old(View()), {c}) && isLoaded
    {
      if !isOnline {
        pendingStarts := pendingStarts + {c};
        return;
      }
      Unregister(c);
      if registeredConversations == map[] {
        world := world.(status := Idle);
      }
      world := world.(started := world.started + multiset{c});
      assert multiset({c}) == multiset{c};
    }

    method StartAllQueues(force: bool, now: nat)
      requires isLoaded && now == world.now
      modifies this
      ensures View() == StartQueues(old(View()), if force then old(registeredConversations).Keys else ReadyOnes(old(View())))
    {
      hide StartQueues;
      var ids := set c | c in registeredConversations && (force || Ready(registeredConversations[c], now));
      assert ids == if force then registeredConversations.Keys else ReadyOnes(View());
      var todo := ids;
      NoneStarted(View());
      assert ids - todo == {};
      while todo != {}
        invariant todo <= ids && isLoaded
        invariant View() == StartQueues(old(View()), ids - todo)
        decreases |todo|
      {
        var c :| c in todo;
        ghost var done := ids - todo;
        OneMoreStarted(old(View()), done, c);
        todo := todo - {c};
        assert ids - todo == done + {c};
        StartQueue(c);
      }
      assert ids - todo == ids;
    }

    method OnOffline()
      modifies this
      ensures View() == Step(old(View()), ChallengeProtocol.OnOffline)
      ensures old(RunInv(View())) ==> RunInv(View())
    {
      if RunInv(View()) { StepKeepsRunInv(View(), ChallengeProtocol.OnOffline); }
      isOnline := false;
    }

    method OnOnline(now: nat)
      requires LoadInv(View()) && now == world.now
      modifies this
      ensures View() == Step(old(View()), ChallengeProtocol.OnOnline)
      ensures old(RunInv(View())) ==> RunInv(View())
    {
      if RunInv(View()) { StepKeepsRunInv(View(), ChallengeProtocol.OnOnline); }
      hide StartQueues;
      isOnline := true;
      pendingStarts := {};
      if isLoaded {
        StartAllQueues(false, now);
      } else {
        NoneStarted(View());
        assert ReadyOnes(View()) == {};
      }
    }

    method ScheduleRetry(c: Conversation, retryAt: nat, now: nat)
      requires now == world.now
      modifies this`startTimers
      ensures View() == Scheduled(old(View()), c, retryAt)
      ensures startTimers == old(startTimers)[c := Due(retryAt, now)]
    {
      var waitTime := if retryAt > now then retryAt - now else 0;
      startTimers := startTimers[c := now + waitTime];
    }

    method ForceWaitOnAll(retryAt: nat, now: nat)
      requires now == world.now
      modifies this
      ensures View() == WaitOnAll(old(View()), retryAt)
      ensures old(RunInv(View())) ==> RunInv(View())
    {
      hide RunInv, WaitOnAll, Scheduled, Retimed, Due, TimersSet;
      WaitingKeepsRunInv(View(), retryAt);
      challengeRateLimitRetryAt := retryAt;
      var todo := registeredConversations.Keys;
      ghost var ids, registered, timers, due := todo, registeredConversations, startTimers, Due(retryAt, now);
      WaitOnAllDone(old(View()), retryAt);
      while todo != {}
        invariant todo <= ids == registeredConversations.Keys
        invariant registeredConversations == Retimed(registered, ids - todo, retryAt)
        invariant startTimers == TimersSet(timers, ids - todo, due)
        invariant View() == old(View()).(rateLimitRetryAt := retryAt, registered := registeredConversations, startTimers := startTimers)
        decreases |todo|
      {
        var c :| c in todo;
        ghost var done := ids - todo;
        RetimedOneMore(registered, done, retryAt, c);
        TimersOneMore(timers, done, due, c);
        var existing := registeredConversations[c];
        registeredConversations := registeredConversations[c := existing.(retryAt := retryAt)];
        ScheduleRetry(c, retryAt, now);
        todo := todo - {c};
        assert ids - todo == done + {c};
      }
      assert ids - todo == ids;
    }

    method Register(challenge: Challenge, captchaOffered: bool, now: nat)
      requires isLoaded && now == world.now
      modifies this
      ensures View() == Registering(old(View()), challenge, captchaOffered)
      ensures old(RunInv(View()) && Orderly(View(), ChallengeProtocol.Register(challenge, captchaOffered))) ==> RunInv(View())
    {
      if RunInv(View()) && Orderly(View(), ChallengeProtocol.Register(challenge, captchaOffered)) {
        StepKeepsRunInv(View(), ChallengeProtocol.Register(challenge, captchaOffered));
      }
      hide StartQueues, BeginSolve;
      var c := challenge.conversation;
      if c in registeredConversations {
        return;
      }
      registeredConversations := registeredConversations[c := challenge];
      Persist();
      if Ready(challenge, now) {
        StartQueue(c);
        return;
      }
      if challengeRateLimitRetryAt > 0 {
        ScheduleRetry(c, challengeRateLimitRetryAt, now);
      } else if challenge.retryAt > 0 {
        ScheduleRetry(c, challenge.retryAt, now);
      }
      if !captchaOffered || challenge.token.None? {
        return;
      }
      if !challenge.silent {
        Solve(challenge.token.value);
      }
    }

    /** `stored` are the stored challenges, in the order of the stored array. */
    method Load(stored: Registered, order: seq<Conversation>, expireAfter: nat, now: nat)
      requires stored == world.storage && now == world.now && Enabled(View(), ChallengeProtocol.Load(order, expireAfter))
      modifies this
      ensures View() == Step(old(View()), ChallengeProtocol.Load(order, expireAfter))
      ensures old(RunInv(View()) && Orderly(View(), ChallengeProtocol.Load(order, expireAfter))) ==> RunInv(View())
    {
      if RunInv(View()) && Orderly(View(), ChallengeProtocol.Load(order, expireAfter)) {
        StepKeepsRunInv(View(), ChallengeProtocol.Load(order, expireAfter));
      }
      hide Registering, Expired;
      if isLoaded {
        return;
      }
      isLoaded := true;
      assert forall c :: c in order <==> c in (set x | x in order);
      ghost var s0 := View();
      for i := 0 to |order|
        invariant isLoaded && world.now == now && forall c | c in order[i..] :: c in stored
        invariant Loading(View(), stored, order[i..], expireAfter) == Loading(s0, stored, order, expireAfter)
      {
        assert order[i] in order && order[i] in stored && order[i..][1..] == order[i + 1..];
        RegisteringKeepsClock(View(), stored[order[i]]);
        if !Expired(stored[order[i]], expireAfter, now) {
          Register(stored[order[i]], true, now);
        }
      }
    }

    /** `#solve` up to the wait for the captcha, with `requestCaptcha`. */
    method Solve(token: Token)
      modifies this
      ensures View() == BeginSolve(old(View()), token)
    {
      solving := solving + 1;
      world := world.(status := Required, solves := world.solves[seqNumber := Asked], issued := world.issued + [token]);
      challengeToken := Some(token);
      var request := RequestCaptcha();
    }

    method RequestCaptcha() returns (request: nat)
      modifies this`seqNumber, this`responseHandlers
      ensures View() == Step(old(View()), ChallengeProtocol.RequestCaptcha) && request == old(seqNumber)
      ensures old(RunInv(View())) ==> RunInv(View())
    {
      if RunInv(View()) { StepKeepsRunInv(View(), ChallengeProtocol.RequestCaptcha); }
      request := seqNumber;
      seqNumber := seqNumber + 1;
      responseHandlers := responseHandlers + {request};
    }

    method MaybeSolve(c: Conversation)
      modifies this
      ensures View() == Step(old(View()), ChallengeProtocol.MaybeSolve(c))
      ensures old(RunInv(View())) ==> RunInv(View())
    {
      if RunInv(View()) { StepKeepsRunInv(View(), ChallengeProtocol.MaybeSolve(c)); }
      hide BeginSolve;
      if c !in registeredConversations || solving > 0 || challengeRateLimitRetryAt > 0 {
        return;
      }
      if registeredConversations[c].token.Some? {
        Solve(registeredConversations[c].token.value);
      }
    }

    method OnResponse(request: nat)
      modifies this
      ensures View() == Step(old(View()), ChallengeProtocol.OnResponse(request))
      ensures old(RunInv(View())) ==> RunInv(View())
    {
      if RunInv(View()) { StepKeepsRunInv(View(), ChallengeProtocol.OnResponse(request)); }
      if request !in responseHandlers {
        return;
      }
      responseHandlers := responseHandlers - {request};
      if request in world.solves {
        world := world.(solves := world.solves[request := Answered]);
      }
    }

    /** `#solve` behind the wait for the captcha; the result is what is sent to the server. */
    method ResumeSolve(ghost request: nat) returns (toSend: Option<Token>)
      requires Enabled(View(), Resume(request))
      modifies this
      ensures View() == Step(old(View()), Resume(request))
      ensures world.sent == old(world.sent) + if toSend.Some? then [toSend.value] else []
      ensures old(RunInv(View())) ==> RunInv(View())
    {
      hide RunInv;
      if RunInv(View()) { StepKeepsRunInv(View(), Resume(request)); }
      if challengeToken.None? {
        solving := solving - 1;
        world := world.(solves := world.solves - {request});
        return None;
      }
      toSend := challengeToken;
      challengeToken := None;
      world := world.(status := Pending, solves := world.solves[request := Sending], sent := world.sent + [toSend.value]);
    }

    /** The server took the captcha. */
    method FinishSolve(ghost request: nat, now: nat)
      requires LoadInv(View()) && now == world.now && Enabled(View(), ServerAccepts(request))
      modifies this
      ensures View() == Step(old(View()), ServerAccepts(request))
      ensures old(RunInv(View())) ==> RunInv(View())
    {
      hide RunInv, StartQueues;
      if RunInv(View()) { StepKeepsRunInv(View(), ServerAccepts(request)); }
      solving := solving - 1;
      world := world.(solves := world.solves - {request}, status := Idle);
      StartAllQueues(true, now);
    }

    /** The server did not, or could not be reached. */
    method FailSolve(ghost request: nat, retryAfter: nat, now: nat)
      requires now == world.now && Enabled(View(), ServerRefuses(request, retryAfter))
      modifies this
      ensures View() == Step(old(View()), ServerRefuses(request, retryAfter))
      ensures old(RunInv(View())) ==> RunInv(View())
    {
      hide RunInv, WaitOnAll;
      if RunInv(View()) { StepKeepsRunInv(View(), ServerRefuses(request, retryAfter)); }
      var retryAt := retryAfter + now;
      world := world.(status := Idle);
      ForceWaitOnAll(retryAt, now);
      solving := solving - 1;
      world := world.(solves := world.solves - {request});
      WaitLeavesSolves(old(View()), request, retryAt);
    }

    method TimerFired(c: Conversation)
      requires LoadInv(View()) && Enabled(View(), TimerFires(c))
      modifies this
      ensures View() == Step(old(View()), TimerFires(c))
      ensures old(RunInv(View())) ==> RunInv(View())
    {
      hide RunInv, LoadInv, StartQueues, Orderly;
      TimerKeepsRunInv(View(), c);
      startTimers := startTimers - {c};
      challengeRateLimitRetryAt := 0;
      StartQueue(c);
    }
  }

  function Retimed(registered: Registered, done: set<Conversation>, retryAt: nat): Registered {
    map c | c in registered :: if c in done then registered[c].(retryAt := retryAt) else registered[c]
  }

  function TimersSet(timers: map<Conversation, nat>, done: set<Conversation>, due: nat): map<Conversation, nat> {
    timers + map c | c in done :: due
  }

  lemma RetimedOneMore(registered: Registered, done: set<Conversation>, retryAt: nat, c: Conversation)
    requires c in registered && c !in done
    ensures var before := Retimed(registered, done, retryAt);
            c in before && Retimed(registered, done + {c}, retryAt) == before[c := before[c].(retryAt := retryAt)]
  {
  }

  lemma TimersOneMore(timers: map<Conversation, nat>, done: set<Conversation>, due: nat, c: Conversation)
    ensures TimersSet(timers, done + {c}, due) == TimersSet(timers, done, due)[c := due]
  {
  }

  lemma WaitOnAllDone(s: State, retryAt: nat)
    ensures var ids := s.registered.Keys;
            && WaitOnAll(s, retryAt) == s.(rateLimitRetryAt := retryAt, registered := Retimed(s.registered, ids, retryAt),
                                           startTimers := TimersSet(s.startTimers, ids, Due(retryAt, s.w.now)))
            && Retimed(s.registered, {}, retryAt) == s.registered
            && TimersSet(s.startTimers, {}, Due(retryAt, s.w.now)) == s.startTimers
            && ids - ids == {}
  {
  }

  lemma NoneStarted(s: State)
    ensures StartQueues(s, {}) == s
  {
    assert s.pendingStarts + {} == s.pendingStarts;
  }

  /** Starting queues one after the other, or all at once. */
  lemma OneMoreStarted(s: State, done: set<Conversation>, c: Conversation)
    requires c !in done
    ensures StartQueues(StartQueues(s, done), {c}) == StartQueues(s, done + {c})
  {
    assert multiset(done + {c}) == multiset(done) + multiset({c});
    assert s.registered - done - {c} == s.registered - (done + {c});
    assert s.startTimers - done - {c} == s.startTimers - (done + {c});
    assert s.pendingStarts - done - {c} == s.pendingStarts - (done + {c});
    assert s.pendingStarts + done + {c} == s.pendingStarts + (done + {c});
    if done == {} {
      NoneStarted(s);
      assert done + {c} == {c};
    } else if s.isOnline {
      var a, b := StartQueues(StartQueues(s, done), {c}), StartQueues(s, done + {c});
      assert a.w.started == b.w.started;
      assert a.w.status == b.w.status;
    }
  }

  lemma WaitingKeepsRunInv(s: State, retryAt: nat)
    ensures RunInv(s) ==> RunInv(WaitOnAll(s, retryAt))
  {
    hide RunInv, WaitOnAll;
    if RunInv(s) { StepKeepsRunInv(s, ChallengeProtocol.ForceWaitOnAll(retryAt)); }
  }

  lemma TimerKeepsRunInv(s: State, c: Conversation)
    requires LoadInv(s) && Enabled(s, TimerFires(c))
    ensures s.isLoaded && Step(s, TimerFires(c)) == Fired(s, c) && (RunInv(s) ==> RunInv(Fired(s, c)))
  {
    hide RunInv, Fired;
    if RunInv(s) { StepKeepsRunInv(s, TimerFires(c)); }
  }

  lemma RegisteringKeepsClock(s: State, c: Challenge)
    ensures var t := Registering(s, c, true); t.w.now == s.w.now && t.isLoaded == s.isLoaded
  {
  }

  /** The source leaves the counter for last. */
  lemma WaitLeavesSolves(s: State, q: nat, retryAt: nat)
    ensures WaitOnAll(Ended(s, q), retryAt)
         == var t := WaitOnAll(s.(w := s.w.(status := Idle)), retryAt);
            t.(solving := t.solving - 1, w := t.w.(solves := t.w.solves - {q}))
  {
  }
}
