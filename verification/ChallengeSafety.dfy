/** What holds over every run of the challenge handler. */
module ChallengeSafety {
  import opened Options
  import opened ChallengeProtocol

  // ---------- solves and tokens ----------

  lemma OneMore(solving: int, n: nat, handlers: set<nat>, solves: map<nat, Phase>)
    requires Counted(solving, n, handlers, solves)
    ensures Counted(solving + 1, n + 1, handlers + {n}, solves[n := Asked])
  {
    assert n !in solves && solves[n := Asked].Keys == solves.Keys + {n};
  }

  lemma OneLess(solving: int, n: nat, handlers: set<nat>, solves: map<nat, Phase>, q: nat)
    requires Counted(solving, n, handlers, solves) && q in solves
    ensures Counted(solving - 1, n, handlers, solves - {q})
  {
    assert (solves - {q}).Keys == solves.Keys - {q};
    assert |solves.Keys - {q}| == |solves.Keys| - 1;
  }

  lemma BeginKeepsCount(s: State, token: Token)
    requires CountInv(s)
    ensures CountInv(BeginSolve(s, token))
  {
    hide Counted;
    OneMore(s.solving, s.seqNumber, s.handlers, s.w.solves);
  }

  lemma BeginKeepsTokens(s: State, token: Token)
    requires TokenInv(s)
    ensures TokenInv(BeginSolve(s, token))
  {
    assert multiset(s.w.issued + [token]) == multiset(s.w.issued) + multiset{token};
  }

  lemma BeginKeepsSolves(s: State, token: Token)
    requires SolveInv(s)
    ensures SolveInv(BeginSolve(s, token))
  {
    hide CountInv, TokenInv;
    BeginKeepsCount(s, token);
    BeginKeepsTokens(s, token);
  }

  /** Nothing that the solves are about changes. */
  predicate SameSolves(s: State, t: State) {
    && t.solving == s.solving && t.w.solves == s.w.solves && t.handlers == s.handlers && t.seqNumber == s.seqNumber
    && t.challengeToken == s.challengeToken && t.w.sent == s.w.sent && t.w.issued == s.w.issued
  }

  lemma StartsAreSame(s: State, ids: set<Conversation>)
    ensures SameSolves(s, StartQueues(s, ids)) && StartQueues(s, ids).w.issued == s.w.issued
  {
  }

  lemma RegisteringIsSame(s: State, c: Challenge, offered: bool)
    ensures || SameSolves(s, Registering(s, c, offered))
            || (c.token.Some? && SameSolves(s, Timed(Added(s, c), c))
                && Registering(s, c, offered) == BeginSolve(Timed(Added(s, c), c), c.token.value))
  {
    hide StartQueues, BeginSolve;
    StartsAreSame(Added(s, c), {c.conversation});
  }

  lemma RegisteringKeepsSolves(s: State, c: Challenge, captchaOffered: bool)
    requires SolveInv(s)
    ensures SolveInv(Registering(s, c, captchaOffered))
  {
    hide SolveInv, Registering, SameSolves, BeginSolve, Timed, Added;
    RegisteringIsSame(s, c, captchaOffered);
    if SameSolves(s, Registering(s, c, captchaOffered)) {
      SameKeepsSolves(s, Registering(s, c, captchaOffered));
    } else {
      SameKeepsSolves(s, Timed(Added(s, c), c));
      BeginKeepsSolves(Timed(Added(s, c), c), c.token.value);
    }
  }

  lemma SameKeepsSolves(s: State, t: State)
    requires SolveInv(s) && SameSolves(s, t)
    ensures SolveInv(t)
  {
  }

  lemma {:induction false} LoadingKeepsSolves(s: State, stored: Registered, order: seq<Conversation>, expireAfter: nat)
    requires SolveInv(s) && forall c | c in order :: c in stored
    ensures SolveInv(Loading(s, stored, order, expireAfter))
    decreases |order|
  {
    hide SolveInv, Registering;
    if order != [] {
      assert order[0] in order;
      var c := stored[order[0]];
      RegisteringKeepsSolves(s, c, true);
      LoadingKeepsSolves(if Expired(c, expireAfter, s.w.now) then s else Registering(s, c, true), stored, order[1..], expireAfter);
    }
  }

  lemma EndedKeepsSolves(s: State, q: nat)
    requires SolveInv(s) && q in s.w.solves
    ensures SolveInv(Ended(s, q))
  {
    hide Counted;
    OneLess(s.solving, s.seqNumber, s.handlers, s.w.solves, q);
  }

  lemma ResumeKeepsSolves(s: State, q: nat)
    requires SolveInv(s) && q in s.w.solves && s.w.solves[q] == Answered
    ensures SolveInv(Resumed(s, q))
  {
    if s.challengeToken.None? {
      EndedKeepsSolves(s, q);
    } else {
      assert s.w.solves[q := Sending].Keys == s.w.solves.Keys;
      assert multiset(s.w.sent + [s.challengeToken.value]) == multiset(s.w.sent) + multiset{s.challengeToken.value};
    }
  }

  lemma ResponseKeepsSolves(s: State, q: nat)
    requires SolveInv(s)
    ensures SolveInv(Responded(s, q))
  {
    if q in s.handlers && q in s.w.solves {
      assert s.w.solves[q := Answered].Keys == s.w.solves.Keys;
    }
  }

  lemma StepKeepsSolves(s: State, e: Event)
    requires SolveInv(s) && Enabled(s, e)
    ensures SolveInv(Step(s, e))
  {
    hide SolveInv, StartQueues, BeginSolve, Registering, Resumed, Ended, Responded, Loading, WaitOnAll;
    match e
    case Load(order, expireAfter) =>
      SameKeepsSolves(s, s.(isLoaded := true));
      LoadingKeepsSolves(s.(isLoaded := true), s.w.storage, order, expireAfter);
    case MaybeSolve(c) =>
      if c in s.registered && s.registered[c].token.Some? { BeginKeepsSolves(s, s.registered[c].token.value); }
    case Register(c, offered) => RegisteringKeepsSolves(s, c, offered);
    case OnResponse(q) => ResponseKeepsSolves(s, q);
    case Resume(q) => ResumeKeepsSolves(s, q);
    case ServerAccepts(q) =>
      EndedKeepsSolves(s, q);
      StartsKeepSolves(Ended(s, q), Ended(s, q).registered.Keys);
    case ServerRefuses(q, after) =>
      EndedKeepsSolves(s, q);
      WaitKeepsSolves(Ended(s, q), after + s.w.now);
    case RequestCaptcha => AskingKeepsSolves(s);
    case ForceWaitOnAll(retryAt) => WaitKeepsSolves(s, retryAt);
    case OnOnline =>
      var t := s.(isOnline := true, pendingStarts := {});
      SameKeepsSolves(s, t);
      StartsKeepSolves(t, ReadyOnes(t));
    case TimerFires(c) =>
      var t := s.(startTimers := s.startTimers - {c}, rateLimitRetryAt := 0);
      SameKeepsSolves(s, t);
      StartsKeepSolves(t, {c});
    case _ => SameKeepsSolves(s, Step(s, e));
  }

  lemma StartsKeepSolves(s: State, ids: set<Conversation>)
    requires SolveInv(s)
    ensures SolveInv(StartQueues(s, ids))
  {
    hide SolveInv;
    SameKeepsSolves(s, StartQueues(s, ids));
  }

  lemma WaitKeepsSolves(s: State, retryAt: nat)
    requires SolveInv(s)
    ensures SolveInv(WaitOnAll(s, retryAt))
  {
    hide SolveInv;
    SameKeepsSolves(s, WaitOnAll(s, retryAt));
  }

  lemma AskingKeepsSolves(s: State)
    requires SolveInv(s)
    ensures SolveInv(Step(s, RequestCaptcha))
  {
  }

  /** Over every run, the counter equals the number of solves in flight, and the responses sent, with
      the token held, are among the tokens issued: no token is sent twice. */
  lemma {:induction false} SolvesOverRuns(s: State, es: seq<Event>)
    requires SolveInv(s) && Runs(s, es)
    ensures var t := Exec(s, es);
            && SolveInv(t) && t.solving == |t.w.solves|
            && |t.w.sent| + (if t.challengeToken.Some? then 1 else 0) <= |t.w.issued|
            && forall k :: multiset(t.w.sent)[k] + Held(t)[k] <= multiset(t.w.issued)[k]
    decreases |es|
  {
    if es == [] {
      SmallerIsFewer(multiset(s.w.sent) + Held(s), multiset(s.w.issued));
    } else {
      StepKeepsSolves(s, es[0]);
      SolvesOverRuns(Step(s, es[0]), es[1..]);
    }
  }

  lemma SmallerIsFewer(a: multiset<Token>, b: multiset<Token>)
    requires a <= b
    ensures |a| <= |b|
  {
    assert b == a + (b - a);
  }

  /** Once a response is sent, the solves still in flight send nothing, until another one begins. */
  lemma {:induction false} LateFinishersSendNothing(s: State, es: seq<Event>)
    requires Runs(s, es) && s.challengeToken.None? && Exec(s, es).w.issued == s.w.issued
    ensures Exec(s, es).challengeToken.None? && Exec(s, es).w.sent == s.w.sent
    decreases |es|
  {
    if es != [] {
      IssuedGrows(s, es[0]);
      IssuedGrowsOverRuns(Step(s, es[0]), es[1..]);
      LateFinishersSendNothing(Step(s, es[0]), es[1..]);
    }
  }

  /** More may be issued; if not, then no token turns up and nothing is sent. */
  predicate IssuesOnly(s: State, t: State) {
    && s.w.issued <= t.w.issued && (t.w.issued == s.w.issued ==> t.challengeToken == s.challengeToken)
    && t.w.sent == s.w.sent
  }

  lemma RegisteringIssues(s: State, c: Challenge, offered: bool)
    ensures IssuesOnly(s, Registering(s, c, offered))
  {
    hide Registering, Timed, Added;
    RegisteringIsSame(s, c, offered);
  }

  lemma {:induction false} LoadingIssues(s: State, stored: Registered, order: seq<Conversation>, expireAfter: nat)
    requires forall c | c in order :: c in stored
    ensures IssuesOnly(s, Loading(s, stored, order, expireAfter))
    decreases |order|
  {
    hide Registering;
    if order != [] {
      assert order[0] in order;
      var c := stored[order[0]];
      RegisteringIssues(s, c, true);
      LoadingIssues(if Expired(c, expireAfter, s.w.now) then s else Registering(s, c, true), stored, order[1..], expireAfter);
    }
  }

  lemma IssuedGrows(s: State, e: Event)
    requires Enabled(s, e)
    ensures var t := Step(s, e);
            && s.w.issued <= t.w.issued
            && (t.w.issued == s.w.issued && s.challengeToken.None? ==> t.challengeToken.None? && t.w.sent == s.w.sent)
  {
    hide StartQueues, Registering, Loading;
    match e
    case Load(order, expireAfter) =>
      if !s.isLoaded { LoadingIssues(s.(isLoaded := true), s.w.storage, order, expireAfter); }
    case Register(c, offered) => RegisteringIssues(s, c, offered);
    case OnOnline =>
      var t := s.(isOnline := true, pendingStarts := {});
      StartsAreSame(t, ReadyOnes(t));
    case ServerAccepts(q) => StartsAreSame(Ended(s, q), Ended(s, q).registered.Keys);
    case TimerFires(c) => StartsAreSame(s.(startTimers := s.startTimers - {c}, rateLimitRetryAt := 0), {c});
    case _ =>
  }

  lemma {:induction false} IssuedGrowsOverRuns(s: State, es: seq<Event>)
    requires Runs(s, es)
    ensures s.w.issued <= Exec(s, es).w.issued
    decreases |es|
  {
    if es != [] {
      IssuedGrows(s, es[0]);
      IssuedGrowsOverRuns(Step(s, es[0]), es[1..]);
    }
  }

  // ---------- nothing with a time is forgotten ----------

  /** A live timer that is not too early, or parked with its time past. */
  predicate Tracked(s: State, c: Conversation)
    requires c in s.registered
  {
    var at := s.registered[c].retryAt;
    (c in s.startTimers && s.startTimers[c] >= at) || (c in s.pendingStarts && at <= s.w.now)
  }

  ghost predicate AllTracked(s: State) {
    forall c | c in s.registered && s.registered[c].retryAt > 0 :: Tracked(s, c)
  }

  /** The rate limit in effect, if any, is no earlier than the challenge's own time. */
  predicate NoEarlyLimit(s: State, c: Challenge) {
    c.retryAt == 0 || c.retryAt <= s.w.now || s.rateLimitRetryAt == 0 || s.rateLimitRetryAt >= c.retryAt
  }

  /** Registration tracks a new challenge with a time exactly when no earlier rate limit is in effect. */
  lemma RegisteringTracksExactly(s: State, c: Challenge, captchaOffered: bool)
    requires c.conversation !in s.registered && c.retryAt > 0
    requires c.conversation !in s.startTimers && c.conversation !in s.pendingStarts
    ensures var t := Registering(s, c, captchaOffered);
            (c.conversation !in t.registered || Tracked(t, c.conversation)) <==> NoEarlyLimit(s, c)
  {
  }

  lemma StartsKeepTracked(s: State, ids: set<Conversation>)
    requires AllTracked(s)
    ensures AllTracked(StartQueues(s, ids))
  {
  }

  lemma TimedIsTracked(s: State, c: Challenge)
    requires AllTracked(s) && NoEarlyLimit(s, c) && c.conversation !in s.registered && !Ready(c, s.w.now)
    ensures AllTracked(Timed(Added(s, c), c))
  {
  }

  lemma BeginKeepsTracked(s: State, token: Token)
    requires AllTracked(s)
    ensures AllTracked(BeginSolve(s, token))
  {
  }

  /** Offline the new one is parked; online it is gone again. */
  lemma ReadyIsTracked(s: State, c: Challenge)
    requires AllTracked(s) && c.conversation !in s.registered && Ready(c, s.w.now)
    ensures AllTracked(StartQueues(Added(s, c), {c.conversation}))
  {
  }

  lemma RegisteringKeepsTracked(s: State, c: Challenge, captchaOffered: bool)
    requires AllTracked(s) && NoEarlyLimit(s, c)
    ensures AllTracked(Registering(s, c, captchaOffered))
  {
    hide AllTracked, NoEarlyLimit, Timed, Added, StartQueues, BeginSolve;
    if c.conversation !in s.registered {
      if Ready(c, s.w.now) {
        ReadyIsTracked(s, c);
      } else {
        TimedIsTracked(s, c);
        if c.token.Some? { BeginKeepsTracked(Timed(Added(s, c), c), c.token.value); }
      }
    }
  }

  /** Whatever was missing before: after `forceWaitOnAll` every registered conversation has a timer. */
  lemma ForceWaitTracksAll(s: State, retryAt: nat)
    ensures AllTracked(WaitOnAll(s, retryAt))
    ensures WaitOnAll(s, retryAt).startTimers.Keys == s.startTimers.Keys + s.registered.Keys
  {
  }

  /** Events that register nothing under an earlier rate limit and move no timer before its time. */
  predicate Orderly(s: State, e: Event) {
    match e
    case Register(c, _) => c.conversation in s.registered || NoEarlyLimit(s, c)
    case ScheduleRetry(c, retryAt) => c in s.registered ==> retryAt >= s.registered[c].retryAt
    case Load(_, _) => s.isLoaded || s.rateLimitRetryAt == 0
    case _ => true
  }

  lemma {:induction false} LoadingKeepsTracked(s: State, stored: Registered, order: seq<Conversation>, expireAfter: nat)
    requires AllTracked(s) && s.rateLimitRetryAt == 0 && forall c | c in order :: c in stored
    ensures AllTracked(Loading(s, stored, order, expireAfter))
    decreases |order|
  {
    hide AllTracked;
    if order != [] {
      assert order[0] in order;
      var c := stored[order[0]];
      RegisteringKeepsTracked(s, c, true);
      LoadingKeepsTracked(if Expired(c, expireAfter, s.w.now) then s else Registering(s, c, true), stored, order[1..], expireAfter);
    }
  }

  lemma OnlineKeepsTracked(s: State)
    requires AllTracked(s)
    ensures AllTracked(Step(s, OnOnline))
  {
    var t := Step(s, OnOnline);
    forall c | c in t.registered && t.registered[c].retryAt > 0
      ensures Tracked(t, c)
    {
      assert c in s.registered && Tracked(s, c) && c !in ReadyOnes(s);
    }
  }

  lemma FiringKeepsTracked(s: State, c: Conversation)
    requires AllTracked(s) && Enabled(s, TimerFires(c))
    ensures AllTracked(Fired(s, c))
  {
    var t := Fired(s, c);
    forall d | d in t.registered && t.registered[d].retryAt > 0
      ensures Tracked(t, d)
    {
      assert d in s.registered && Tracked(s, d);
    }
  }

  lemma StepKeepsTracked(s: State, e: Event)
    requires AllTracked(s) && Enabled(s, e) && Orderly(s, e)
    ensures AllTracked(Step(s, e))
  {
    hide StartQueues, Loading, WaitOnAll, Fired, Registering, Unregistered;
    match e
    case Load(order, expireAfter) =>
      if !s.isLoaded { LoadingKeepsTracked(s.(isLoaded := true), s.w.storage, order, expireAfter); }
    case OnOnline => OnlineKeepsTracked(s);
    case Register(c, offered) => RegisteringIsOrderly(s, c, offered);
    case Unregister(c) => UnregisteringKeepsTracked(s, c);
    case TimerFires(c) => FiringKeepsTracked(s, c);
    case ForceWaitOnAll(retryAt) => ForceWaitTracksAll(s, retryAt);
    case ServerAccepts(q) => StartsKeepTracked(Ended(s, q), Ended(s, q).registered.Keys);
    case ServerRefuses(q, after) => ForceWaitTracksAll(Ended(s, q), after + s.w.now);
    case _ =>
  }

  lemma RegisteringIsOrderly(s: State, c: Challenge, offered: bool)
    requires AllTracked(s) && (c.conversation in s.registered || NoEarlyLimit(s, c))
    ensures AllTracked(Registering(s, c, offered))
  {
    hide AllTracked;
    if c.conversation !in s.registered { RegisteringKeepsTracked(s, c, offered); }
  }

  lemma UnregisteringKeepsTracked(s: State, c: Conversation)
    requires AllTracked(s)
    ensures AllTracked(Unregistered(s, {c}))
  {
  }

  predicate AllOrderly(s: State, es: seq<Event>)
    requires Runs(s, es)
    decreases |es|
  {
    es == [] || (Orderly(s, es[0]) && AllOrderly(Step(s, es[0]), es[1..]))
  }

  /** Over every run without registrations under an earlier rate limit, a registered conversation with
      a time always has a live timer, or is parked with its time past. */
  lemma {:induction false} TrackedOverRuns(s: State, es: seq<Event>)
    requires AllTracked(s) && Runs(s, es) && AllOrderly(s, es)
    ensures AllTracked(Exec(s, es))
    decreases |es|
  {
    if es != [] {
      StepKeepsTracked(s, es[0]);
      TrackedOverRuns(Step(s, es[0]), es[1..]);
    }
  }

  /** The condition is needed: registered under an earlier rate limit, its timer fires too early while
      offline, and going online starts nothing and leaves it without a timer. */
  lemma LostUnderEarlyLimit(s: State, c: Challenge)
    requires s.isLoaded && !s.isOnline && c.conversation !in s.registered
    requires s.w.now < s.rateLimitRetryAt < c.retryAt && c.token.None?
    ensures var run := [Register(c, true)] + ([TimePasses(s.rateLimitRetryAt - s.w.now)]
                       + ([TimerFires(c.conversation)] + ([OnOnline] + [])));
            && Runs(s, run) && c.conversation in Exec(s, run).registered
            && c.conversation !in Exec(s, run).startTimers && c.conversation !in Exec(s, run).pendingStarts
            && Exec(s, run).w.started[c.conversation] == s.w.started[c.conversation]
  {
    var s1 := Scheduled(Added(s, c), c.conversation, s.rateLimitRetryAt);
    var e2 := TimePasses(s.rateLimitRetryAt - s.w.now);
    var s2 := Step(s1, e2);
    var s3 := Step(s2, TimerFires(c.conversation));
    assert c.conversation !in ReadyOnes(s3.(isOnline := true, pendingStarts := {}));
    assert Step(s, Register(c, true)) == s1;
    OneStep(s3, OnOnline, []);
    OneStep(s2, TimerFires(c.conversation), [OnOnline] + []);
    OneStep(s1, e2, [TimerFires(c.conversation)] + ([OnOnline] + []));
    OneStep(s, Register(c, true), [e2] + ([TimerFires(c.conversation)] + ([OnOnline] + [])));
  }

  lemma OneStep(s: State, e: Event, es: seq<Event>)
    requires Enabled(s, e) && Runs(Step(s, e), es)
    ensures Runs(s, [e] + es) && Exec(s, [e] + es) == Exec(Step(s, e), es)
  {
    hide Step, Enabled;
    assert ([e] + es)[1..] == es;
  }

  // ---------- starting ----------

  /** Going online starts exactly the registered conversations whose time is past. A parked one that is
      not started keeps a timer if it has a time, and otherwise goes on waiting for a captcha. */
  lemma OnlineStartsExactly(s: State)
    requires AllTracked(s)
    ensures var t := Step(s, OnOnline);
            && t.w.started == s.w.started + multiset(ReadyOnes(s)) && t.pendingStarts == {}
            && t.registered == s.registered - ReadyOnes(s)
            && (forall c | c in s.registered && c in s.pendingStarts && c !in ReadyOnes(s) ::
                  s.registered[c].retryAt == 0 || (c in t.startTimers && t.startTimers[c] >= s.registered[c].retryAt))
  {
    var t := s.(isOnline := true, pendingStarts := {});
    assert ReadyOnes(t) == ReadyOnes(s);
    if ReadyOnes(s) == {} {
      assert s.registered - {} == s.registered;
      assert s.w.started + multiset{} == s.w.started;
    }
    forall c | c in s.registered && c in s.pendingStarts && c !in ReadyOnes(s)
      ensures s.registered[c].retryAt == 0
           || (c in Step(s, OnOnline).startTimers && Step(s, OnOnline).startTimers[c] >= s.registered[c].retryAt)
    {
      if s.registered[c].retryAt > 0 { assert Tracked(s, c); }
    }
  }

  ghost predicate Nowhere(s: State, c: Conversation) {
    c !in s.registered && c !in s.startTimers && c !in s.pendingStarts
  }

  lemma StartedIsNowhere(s: State, ids: set<Conversation>, c: Conversation)
    requires s.w.started[c] < StartQueues(s, ids).w.started[c]
    ensures Nowhere(StartQueues(s, ids), c)
  {
  }

  /** A conversation whose queue was just started is in none of the three collections. */
  lemma StartedAreNowhere(s: State, e: Event, c: Conversation)
    requires Enabled(s, e) && !e.Load? && s.w.started[c] < Step(s, e).w.started[c]
    ensures Nowhere(Step(s, e), c)
  {
    hide StartQueues, Nowhere;
    match e
    case OnOnline =>
      var t := s.(isOnline := true, pendingStarts := {});
      StartedIsNowhere(t, ReadyOnes(t), c);
    case ServerAccepts(q) => StartedIsNowhere(Ended(s, q), s.registered.Keys, c);
    case TimerFires(d) => StartedIsNowhere(s.(startTimers := s.startTimers - {d}, rateLimitRetryAt := 0), {d}, c);
    case Register(d, _) => StartedIsNowhere(Added(s, d), {d.conversation}, c);
    case _ => assert false;
  }

  // ---------- storage ----------

  /** Whenever a conversation comes or goes, the storage says what is registered. */
  lemma ChangesAreStored(s: State, e: Event)
    requires Enabled(s, e) && !e.Load? && Step(s, e).registered.Keys != s.registered.Keys
    ensures Step(s, e).w.storage == Step(s, e).registered
  {
    hide WaitOnAll, Registering;
    match e
    case ServerRefuses(q, after) => WaitKeepsIds(Ended(s, q), after + s.w.now);
    case ForceWaitOnAll(retryAt) => WaitKeepsIds(s, retryAt);
    case Register(c, offered) => RegisteringStores(s, c, offered);
    case _ =>
  }

  lemma WaitKeepsIds(s: State, retryAt: nat)
    ensures WaitOnAll(s, retryAt).registered.Keys == s.registered.Keys
  {
  }

  lemma RegisteringStores(s: State, c: Challenge, offered: bool)
    ensures var t := Registering(s, c, offered);
            t.isLoaded == s.isLoaded && (if c.conversation in s.registered then t == s else t.w.storage == t.registered)
  {
  }

  /** The same ids are stored as registered; only new times from `forceWaitOnAll` may be missing. */
  ghost predicate Stored(s: State) {
    && s.w.storage.Keys == s.registered.Keys
    && forall c | c in s.registered :: s.w.storage[c].(retryAt := 0) == s.registered[c].(retryAt := 0)
  }

  lemma StepKeepsStored(s: State, e: Event)
    requires s.isLoaded && Enabled(s, e) && Stored(s)
    ensures Stored(Step(s, e)) && Step(s, e).isLoaded
  {
    hide Stored, Registering, WaitOnAll, StartQueues;
    match e
    case Register(c, offered) =>
      RegisteringStores(s, c, offered);
      if c.conversation !in s.registered { EqualIsStored(Registering(s, c, offered)); }
    case Unregister(c) => EqualIsStored(Unregistered(s, {c}));
    case ForceWaitOnAll(retryAt) => WaitKeepsStored(s, retryAt);
    case ServerRefuses(q, after) =>
      SameIsStored(s, Ended(s, q));
      WaitKeepsStored(Ended(s, q), after + s.w.now);
    case ServerAccepts(q) =>
      SameIsStored(s, Ended(s, q));
      StartsKeepStored(Ended(s, q), s.registered.Keys);
    case OnOnline =>
      var t := s.(isOnline := true, pendingStarts := {});
      SameIsStored(s, t);
      StartsKeepStored(t, ReadyOnes(t));
    case TimerFires(c) =>
      var t := s.(startTimers := s.startTimers - {c}, rateLimitRetryAt := 0);
      SameIsStored(s, t);
      StartsKeepStored(t, {c});
    case _ => SameIsStored(s, Step(s, e));
  }

  lemma SameIsStored(s: State, t: State)
    requires Stored(s) && t.registered == s.registered && t.w.storage == s.w.storage
    ensures Stored(t)
  {
  }

  lemma EqualIsStored(s: State)
    requires s.w.storage == s.registered
    ensures Stored(s)
  {
  }

  lemma StartsKeepStored(s: State, ids: set<Conversation>)
    requires Stored(s)
    ensures Stored(StartQueues(s, ids)) && StartQueues(s, ids).isLoaded == s.isLoaded
  {
    hide Stored;
    if s.isOnline && ids != {} { EqualIsStored(StartQueues(s, ids)); } else { SameIsStored(s, StartQueues(s, ids)); }
  }

  lemma WaitKeepsStored(s: State, retryAt: nat)
    requires Stored(s)
    ensures Stored(WaitOnAll(s, retryAt)) && WaitOnAll(s, retryAt).isLoaded == s.isLoaded
  {
  }

  lemma {:induction false} LoadingKeepsLoaded(s: State, stored: Registered, order: seq<Conversation>, expireAfter: nat)
    requires s.isLoaded && forall c | c in order :: c in stored
    ensures Loading(s, stored, order, expireAfter).isLoaded
    decreases |order|
  {
    hide Registering, Expired;
    if order != [] {
      assert order[0] in order;
      RegisteringStores(s, stored[order[0]], true);
      LoadingKeepsLoaded(if Expired(stored[order[0]], expireAfter, s.w.now) then s else Registering(s, stored[order[0]], true),
                         stored, order[1..], expireAfter);
    }
  }

  lemma StepKeepsLoadInv(s: State, e: Event)
    requires LoadInv(s) && Enabled(s, e)
    ensures LoadInv(Step(s, e)) && (s.isLoaded ==> Step(s, e).isLoaded)
  {
    hide Registering, Loading, WaitOnAll, Unregistered;
    match e
    case Load(order, expireAfter) =>
      if !s.isLoaded { LoadingKeepsLoaded(s.(isLoaded := true), s.w.storage, order, expireAfter); }
    case Register(c, offered) => RegisteringStores(s, c, offered);
    case ForceWaitOnAll(retryAt) => WaitKeepsLoadInv(s, retryAt);
    case ServerRefuses(q, after) => WaitKeepsLoadInv(Ended(s, q), after + s.w.now);
    case OnOnline => StartsKeepLoadInv(s.(isOnline := true, pendingStarts := {}));
    case ServerAccepts(q) => UnregisteringKeepsLoaded(Ended(s, q), s.registered.Keys);
    case TimerFires(c) => UnregisteringKeepsLoaded(s.(startTimers := s.startTimers - {c}, rateLimitRetryAt := 0), {c});
    case Unregister(c) => UnregisteringKeepsLoaded(s, {c});
    case _ =>
  }

  lemma UnregisteringKeepsLoaded(s: State, ids: set<Conversation>)
    ensures Unregistered(s, ids).isLoaded == s.isLoaded
  {
  }

  lemma StartsKeepLoadInv(s: State)
    requires LoadInv(s)
    ensures LoadInv(StartQueues(s, ReadyOnes(s))) && StartQueues(s, ReadyOnes(s)).isLoaded == s.isLoaded
  {
    if !s.isLoaded { assert ReadyOnes(s) == {}; }
  }

  lemma WaitKeepsLoadInv(s: State, retryAt: nat)
    requires LoadInv(s)
    ensures LoadInv(WaitOnAll(s, retryAt)) && WaitOnAll(s, retryAt).isLoaded == s.isLoaded
  {
  }

  /** The storage as a restart would read it, without what is too old. */
  function Fresh(stored: Registered, order: seq<Conversation>, expireAfter: nat, now: nat): Registered {
    map c | c in stored && c in order && !Expired(stored[c], expireAfter, now) :: stored[c]
  }

  /** A start, which loads before it is online, registers again exactly what was stored and is not too
      old, and tracks every conversation with a time. */
  lemma {:induction false} LoadingRestores(s: State, stored: Registered, order: seq<Conversation>, expireAfter: nat)
    requires !s.isOnline && s.rateLimitRetryAt == 0 && AllTracked(s) && Distinct(order)
    requires forall c | c in order :: c in stored && stored[c].conversation == c && c !in s.registered
    ensures var t := Loading(s, stored, order, expireAfter);
            && t.registered == s.registered + Fresh(stored, order, expireAfter, s.w.now)
            && AllTracked(t) && !t.isOnline
            && (t.w.storage == t.registered || (t.registered == s.registered && t.w.storage == s.w.storage))
    decreases |order|
  {
    hide AllTracked, Registering, Expired, Fresh;
    if order == [] {
      NothingFresh(stored, expireAfter, s.w.now);
      assert s.registered + map[] == s.registered;
      assert Fresh(stored, order, expireAfter, s.w.now) == map[];
    } else {
      assert order[0] in order;
      var c, rest := stored[order[0]], order[1..];
      assert order == [order[0]] + rest;
      assert order[0] !in rest;
      RestoreOne(s, c);
      var s1 := if Expired(c, expireAfter, s.w.now) then s else Registering(s, c, true);
      forall d | d in rest ensures d in stored && stored[d].conversation == d && d !in s1.registered {
        assert d in order && d != order[0];
      }
      LoadingRestores(s1, stored, rest, expireAfter);
      FreshOneMore(stored, order, expireAfter, s.w.now);
      LaterPut(s.registered, Fresh(stored, rest, expireAfter, s.w.now), order[0], c);
    }
  }

  lemma FreshOneMore(stored: Registered, order: seq<Conversation>, expireAfter: nat, now: nat)
    requires order != [] && order[0] in stored && order[0] !in order[1..]
    ensures order[0] !in Fresh(stored, order[1..], expireAfter, now)
    ensures Fresh(stored, order, expireAfter, now)
         == if Expired(stored[order[0]], expireAfter, now) then Fresh(stored, order[1..], expireAfter, now)
            else Fresh(stored, order[1..], expireAfter, now)[order[0] := stored[order[0]]]
  {
    assert forall c :: c in order <==> c == order[0] || c in order[1..];
  }

  lemma NothingFresh(stored: Registered, expireAfter: nat, now: nat)
    ensures Fresh(stored, [], expireAfter, now) == map[]
  {
  }

  lemma LaterPut(a: Registered, b: Registered, id: Conversation, c: Challenge)
    requires id !in b
    ensures a[id := c] + b == a + b[id := c]
  {
  }

  lemma RestoreOne(s: State, c: Challenge)
    requires !s.isOnline && s.rateLimitRetryAt == 0 && AllTracked(s) && c.conversation !in s.registered
    ensures var t := Registering(s, c, true);
            && t.registered == s.registered[c.conversation := c] && t.w.storage == t.registered && AllTracked(t)
            && !t.isOnline && t.rateLimitRetryAt == 0 && t.w.now == s.w.now
  {
    RegisteringKeepsTracked(s, c, true);
  }

  /** A start of the program, as an event. */
  lemma StartRestores(s: State, order: seq<Conversation>, expireAfter: nat)
    requires !s.isLoaded && LoadInv(s) && !s.isOnline && s.rateLimitRetryAt == 0
    requires Enabled(s, Load(order, expireAfter))
    requires Named(s.w.storage)
    ensures var t := Step(s, Load(order, expireAfter));
            && AllTracked(t)
            && var age := if expireAfter == 0 then 86400000 else expireAfter;
               t.registered == map c | c in s.w.storage && s.w.storage[c].createdAt > s.w.now - age :: s.w.storage[c]
  {
    hide Loading;
    assert forall c :: c in order <==> c in (set x | x in order);
    LoadingRestores(s.(isLoaded := true), s.w.storage, order, expireAfter);
  }
}
