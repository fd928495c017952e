/** The invariants of the challenge handler together, what is stored over whole runs, and a run that
    parks a conversation without a time. */
module ChallengeRuns {
  import opened Options
  import opened ChallengeProtocol
  import opened ChallengeSafety

  // ---------- all invariants ----------

  /** Parked means offline. */
  predicate ParkedOffline(s: State) { s.isOnline ==> s.pendingStarts == {} }

  ghost predicate RunInv(s: State) {
    SolveInv(s) && LoadInv(s) && AllTracked(s) && ParkedOffline(s)
  }

  lemma StartsKeepParked(s: State, ids: set<Conversation>)
    requires ParkedOffline(s)
    ensures ParkedOffline(StartQueues(s, ids))
  {
  }

  lemma RegisteringKeepsParked(s: State, c: Challenge, offered: bool)
    requires ParkedOffline(s)
    ensures ParkedOffline(Registering(s, c, offered))
  {
  }

  lemma {:induction false} LoadingKeepsParked(s: State, stored: Registered, order: seq<Conversation>, expireAfter: nat)
    requires ParkedOffline(s) && forall c | c in order :: c in stored
    ensures ParkedOffline(Loading(s, stored, order, expireAfter))
    decreases |order|
  {
    hide Registering, Expired, ParkedOffline;
    if order != [] {
      assert order[0] in order;
      var c := stored[order[0]];
      RegisteringKeepsParked(s, c, true);
      LoadingKeepsParked(if Expired(c, expireAfter, s.w.now) then s else Registering(s, c, true), stored, order[1..], expireAfter);
    }
  }

  lemma StepKeepsParked(s: State, e: Event)
    requires ParkedOffline(s) && Enabled(s, e)
    ensures ParkedOffline(Step(s, e))
  {
    hide StartQueues, Registering, Loading;
    match e
    case Load(order, expireAfter) =>
      if !s.isLoaded { LoadingKeepsParked(s.(isLoaded := true), s.w.storage, order, expireAfter); }
    case Register(c, offered) => RegisteringKeepsParked(s, c, offered);
    case OnOnline =>
      var t := s.(isOnline := true, pendingStarts := {});
      StartsKeepParked(t, ReadyOnes(t));
    case ServerAccepts(q) => StartsKeepParked(Ended(s, q), s.registered.Keys);
    case TimerFires(c) => StartsKeepParked(s.(startTimers := s.startTimers - {c}, rateLimitRetryAt := 0), {c});
    case _ =>
  }

  lemma StepKeepsRunInv(s: State, e: Event)
    requires RunInv(s) && Enabled(s, e) && Orderly(s, e)
    ensures RunInv(Step(s, e))
  {
    hide SolveInv, LoadInv, AllTracked, ParkedOffline, Step, Enabled, Orderly;
    StepKeepsSolves(s, e);
    StepKeepsLoadInv(s, e);
    StepKeepsTracked(s, e);
    StepKeepsParked(s, e);
  }

  /** Over every run without registrations under an earlier rate limit: solves are counted and tokens
      sent once, and a conversation with a time has a live timer, or is parked with its time past while
      the handler is offline. */
  lemma {:induction false} RunKeepsInv(s: State, es: seq<Event>)
    requires RunInv(s) && Runs(s, es) && AllOrderly(s, es)
    ensures RunInv(Exec(s, es))
    decreases |es|
  {
    hide RunInv, Step, Enabled, Orderly;
    if es != [] {
      StepKeepsRunInv(s, es[0]);
      RunKeepsInv(Step(s, es[0]), es[1..]);
    }
  }

  // ---------- what is stored ----------

  lemma RegisteringKeys(s: State, c: Challenge, offered: bool)
    ensures Registering(s, c, offered).registered.Keys <= s.registered.Keys + {c.conversation}
    ensures Registering(s, c, offered).w.now == s.w.now
  {
  }

  predicate SomeFresh(stored: Registered, order: seq<Conversation>, expireAfter: nat, now: nat)
    requires forall c | c in order :: c in stored
  {
    exists c | c in order :: !Expired(stored[c], expireAfter, now)
  }

  /** Loading writes the storage as soon as one challenge is registered, and otherwise does nothing. */
  lemma {:induction false} LoadingStores(s: State, stored: Registered, order: seq<Conversation>, expireAfter: nat)
    requires Distinct(order)
    requires forall c | c in order :: c in stored && stored[c].conversation == c && c !in s.registered
    ensures var t := Loading(s, stored, order, expireAfter);
            if SomeFresh(stored, order, expireAfter, s.w.now) then t.w.storage == t.registered else t == s
    decreases |order|
  {
    hide Registering, Expired;
    if order != [] {
      assert order[0] in order;
      var c, rest := stored[order[0]], order[1..];
      assert order == [order[0]] + rest;
      assert order[0] !in rest;
      var s1 := if Expired(c, expireAfter, s.w.now) then s else Registering(s, c, true);
      RegisteringKeys(s, c, true);
      RegisteringStores(s, c, true);
      forall d | d in rest ensures d in stored && stored[d].conversation == d && d !in s1.registered {
        assert d in order && d != order[0];
      }
      LoadingStores(s1, stored, rest, expireAfter);
      FreshHead(stored, order, expireAfter, s.w.now);
    }
  }

  lemma FreshHead(stored: Registered, order: seq<Conversation>, expireAfter: nat, now: nat)
    requires order != [] && forall c | c in order :: c in stored
    ensures order[0] in order && forall c | c in order[1..] :: c in stored
    ensures SomeFresh(stored, order, expireAfter, now) <==>
              !Expired(stored[order[0]], expireAfter, now) || SomeFresh(stored, order[1..], expireAfter, now)
  {
    hide Expired;
    assert order == [order[0]] + order[1..];
  }

  ghost predicate StartState(s: State, order: seq<Conversation>, expireAfter: nat) {
    !s.isLoaded && LoadInv(s) && Enabled(s, Load(order, expireAfter)) && Named(s.w.storage)
  }

  /** After loading the storage holds what is registered if and only if it was empty or held something
      that is not too old; otherwise it still holds what has expired, and nothing is registered. */
  lemma LoadStoresExactly(s: State, order: seq<Conversation>, expireAfter: nat)
    requires StartState(s, order, expireAfter)
    ensures var t := Step(s, Load(order, expireAfter));
            && (Stored(t) <==> s.w.storage == map[]
                               || exists c | c in s.w.storage :: !Expired(s.w.storage[c], expireAfter, s.w.now))
            && (!Stored(t) ==> t.registered == map[] && t.w.storage == s.w.storage)
  {
    hide Expired, Loading;
    assert forall c :: c in order <==> c in (set x | x in order);
    var s0 := s.(isLoaded := true);
    LoadingStores(s0, s.w.storage, order, expireAfter);
    if SomeFresh(s.w.storage, order, expireAfter, s.w.now) {
      EqualIsStored(Loading(s0, s.w.storage, order, expireAfter));
    }
  }

  /** Either the storage is up to date, or nothing is registered and it is as it was. */
  ghost predicate StoredOrUntouched(s: State, before: Registered) {
    Stored(s) || (s.registered == map[] && s.w.storage == before)
  }

  lemma StepKeepsStoredOrUntouched(s: State, e: Event, before: Registered)
    requires s.isLoaded && Enabled(s, e) && StoredOrUntouched(s, before)
    ensures StoredOrUntouched(Step(s, e), before) && Step(s, e).isLoaded
    ensures Stored(s) ==> Stored(Step(s, e))
  {
    if Stored(s) {
      StepKeepsStored(s, e);
    } else {
      UntouchedStep(s, e);
    }
  }

  lemma UntouchedStep(s: State, e: Event)
    requires s.isLoaded && Enabled(s, e) && s.registered == map[]
    ensures Step(s, e).isLoaded && StoredOrUntouched(Step(s, e), s.w.storage)
  {
    hide Registering, Stored, StartQueues, BeginSolve;
    match e
    case Register(c, offered) =>
      RegisteringStores(s, c, offered);
      EqualIsStored(Registering(s, c, offered));
    case Unregister(c) => EqualIsStored(Unregistered(s, {c}));
    case OnOnline => UntouchedStart(s.(isOnline := true, pendingStarts := {}), ReadyOnes(s.(isOnline := true, pendingStarts := {})));
    case ServerAccepts(q) => UntouchedStart(Ended(s, q), s.registered.Keys);
    case TimerFires(c) => UntouchedStart(s.(startTimers := s.startTimers - {c}, rateLimitRetryAt := 0), {c});
    case _ =>
  }

  lemma UntouchedStart(s: State, ids: set<Conversation>)
    requires s.registered == map[]
    ensures var t := StartQueues(s, ids); t.isLoaded == s.isLoaded && StoredOrUntouched(t, s.w.storage)
  {
    hide Stored;
    if s.isOnline && ids != {} { EqualIsStored(StartQueues(s, ids)); }
  }

  lemma {:induction false} StoredFromThere(s: State, es: seq<Event>, before: Registered)
    requires s.isLoaded && StoredOrUntouched(s, before) && Runs(s, es)
    ensures StoredOrUntouched(Exec(s, es), before)
    ensures Stored(s) ==> Stored(Exec(s, es))
    decreases |es|
  {
    hide StoredOrUntouched, Stored, Step, Enabled;
    if es != [] {
      StepKeepsStoredOrUntouched(s, es[0], before);
      StoredFromThere(Step(s, es[0]), es[1..], before);
    }
  }

  /** From the start of the program on, over every run: the storage holds the registered conversations, up
      to new times from `forceWaitOnAll`, except that expired challenges stay stored until the first
      change when nothing else was loaded. */
  lemma StorageOverRuns(s: State, order: seq<Conversation>, expireAfter: nat, es: seq<Event>)
    requires StartState(s, order, expireAfter) && Runs(Step(s, Load(order, expireAfter)), es)
    ensures var u := Exec(Step(s, Load(order, expireAfter)), es);
            && (Stored(u) || (u.registered == map[] && u.w.storage == s.w.storage
                              && forall c | c in s.w.storage :: Expired(s.w.storage[c], expireAfter, s.w.now)))
            && ((s.w.storage == map[] || exists c | c in s.w.storage :: !Expired(s.w.storage[c], expireAfter, s.w.now))
                ==> Stored(u))
  {
    hide Expired, Stored, Runs, Exec;
    LoadStoresExactly(s, order, expireAfter);
    LoadedByLoad(s, order, expireAfter);
    StoredFromThere(Step(s, Load(order, expireAfter)), es, s.w.storage);
  }

  lemma LoadedByLoad(s: State, order: seq<Conversation>, expireAfter: nat)
    requires Enabled(s, Load(order, expireAfter))
    ensures Step(s, Load(order, expireAfter)).isLoaded
  {
    hide Loading;
    if !s.isLoaded {
      assert forall c :: c in order <==> c in (set x | x in order);
      LoadingKeepsLoaded(s.(isLoaded := true), s.w.storage, order, expireAfter);
    }
  }

  // ---------- parked without a time ----------

  /** A conversation that waits for a captcha only. */
  ghost predicate WaitsForCaptcha(s: State, c: Challenge) {
    && s.isLoaded && s.isOnline && SolveInv(s) && s.rateLimitRetryAt == 0 && c.retryAt == 0
    && c.token.Some? && !c.silent
    && c.conversation !in s.registered && c.conversation !in s.startTimers && c.conversation !in s.pendingStarts
  }

  function SolvedOffline(c: Challenge, q: nat): seq<Event> {
    [Register(c, true)] + ([OnResponse(q)] + ([Resume(q)] + ([OnOffline] + ([ServerAccepts(q)] + []))))
  }

  /** Its captcha is solved, but the connection is lost before the answer of the server: the conversation is
      parked without a time, and going online forgets it without starting it. */
  lemma ParkedWithoutTime(s: State, c: Challenge)
    requires WaitsForCaptcha(s, c)
    ensures Runs(s, SolvedOffline(c, s.seqNumber))
    ensures var t := Exec(s, SolvedOffline(c, s.seqNumber));
            && c.conversation in t.pendingStarts && c.conversation in t.registered
            && t.registered[c.conversation].retryAt == 0
            && var u := Step(t, OnOnline);
               && c.conversation in u.registered && c.conversation !in u.pendingStarts && c.conversation !in u.startTimers
               && u.w.started[c.conversation] == s.w.started[c.conversation]
  {
    var q := s.seqNumber;
    var s1, s2, s3 := AfterRegister(s, c), AfterResponse(s, c), AfterResume(s, c);
    RegisterStep(s, c);
    ResponseStep(s, c);
    ResumeStep(s, c);
    var s4 := s3.(isOnline := false);
    var s5 := StartQueues(Ended(s4, q), s4.registered.Keys);
    AcceptStep(s4, q, c.conversation);
    OneStep(s4, ServerAccepts(q), []);
    OneStep(s3, OnOffline, [ServerAccepts(q)] + []);
    OneStep(s2, Resume(q), [OnOffline] + ([ServerAccepts(q)] + []));
    OneStep(s1, OnResponse(q), [Resume(q)] + ([OnOffline] + ([ServerAccepts(q)] + [])));
    OneStep(s, Register(c, true), [OnResponse(q)] + ([Resume(q)] + ([OnOffline] + ([ServerAccepts(q)] + []))));
    NotReadyStays(s5, c.conversation);
  }

  function AfterRegister(s: State, c: Challenge): State
    requires c.token.Some?
  {
    BeginSolve(Added(s, c), c.token.value)
  }

  function AfterResponse(s: State, c: Challenge): State
    requires c.token.Some?
  {
    Responded(AfterRegister(s, c), s.seqNumber)
  }

  function AfterResume(s: State, c: Challenge): State
    requires c.token.Some?
  {
    Resumed(AfterResponse(s, c), s.seqNumber)
  }

  lemma RegisterStep(s: State, c: Challenge)
    requires WaitsForCaptcha(s, c)
    ensures Enabled(s, Register(c, true)) && Step(s, Register(c, true)) == AfterRegister(s, c)
  {
    hide BeginSolve, SolveInv;
  }

  lemma ResponseStep(s: State, c: Challenge)
    requires WaitsForCaptcha(s, c)
    ensures var s1, s2 := AfterRegister(s, c), AfterResponse(s, c);
            && Step(s1, OnResponse(s.seqNumber)) == s2
            && s.seqNumber in s2.w.solves && s2.w.solves[s.seqNumber] == Answered && s2.challengeToken.Some?
  {
    hide SolveInv;
  }

  lemma ResumeStep(s: State, c: Challenge)
    requires WaitsForCaptcha(s, c)
    ensures var s2, s3 := AfterResponse(s, c), AfterResume(s, c);
            && Enabled(s2, Resume(s.seqNumber)) && Step(s2, Resume(s.seqNumber)) == s3
            && s.seqNumber in s3.w.solves && s3.w.solves[s.seqNumber] == Sending
            && s3.registered == s.registered[c.conversation := c] && s3.startTimers == s.startTimers
            && s3.w.started == s.w.started
  {
    hide SolveInv;
  }

  lemma AcceptStep(s: State, q: nat, c: Conversation)
    requires !s.isOnline && q in s.w.solves && s.w.solves[q] == Sending && c in s.registered
    ensures Enabled(s, ServerAccepts(q))
    ensures var t := Step(s, ServerAccepts(q));
            && t == StartQueues(Ended(s, q), s.registered.Keys)
            && c in t.pendingStarts && t.registered == s.registered && t.startTimers == s.startTimers
            && t.w.started == s.w.started
  {
  }

  lemma NotReadyStays(s: State, c: Conversation)
    requires c in s.registered && s.registered[c].retryAt == 0 && c !in s.startTimers
    ensures var t := Step(s, OnOnline);
            && c in t.registered && c !in t.pendingStarts && c !in t.startTimers && t.w.started[c] == s.w.started[c]
  {
    assert c !in ReadyOnes(s.(isOnline := true, pendingStarts := {}));
  }
}
