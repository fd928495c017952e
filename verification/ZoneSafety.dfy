/** What every transition of the zone protocol keeps, and what follows for whole runs. */
module ZoneSafety {
  import opened KyberTriples
  import opened Options
  import opened ZoneProtocol

  // ---------- the lock ----------

  lemma {:induction false} MembersCount(q: seq<Call>)
    requires NoDuplicates(q)
    ensures |Members(q)| == |q|
  {
    if q != [] {
      MembersCount(q[1..]);
      assert q == [q[0]] + q[1..];
      assert Members(q) == {q[0]} + Members(q[1..]);
    }
  }

  /** The last call leaves: nobody is active any more and the front of the queue is let in. */
  lemma AdmitKeepsLock(t: State)
    requires t.depth == 1 && t.running == {} && t.closing == {} && t.stuck == {}
    requires NoDuplicates(t.queue) && t.unwritten == [] && t.written == []
    ensures LockInv(Release(t))
  {
    if t.queue != [] {
      var n := RunLength(t.queue);
      MembersCount(t.queue[..n]);
      assert t.running + Members(t.queue[..n]) == Members(t.queue[..n]);
      assert forall i :: n <= i < |t.queue| ==> t.queue[n..][i - n] == t.queue[i];
    }
  }

  lemma HeadIn(bs: seq<Batch>)
    requires bs != []
    ensures bs[0] in bs
  {
  }

  lemma NoOwnerNoBatch(s: State, c: Call)
    requires LockInv(s) && s.Idle(c)
    requires s.running <= {c} && s.closing <= {c}
    ensures s.unwritten == [] && s.written == []
  {
    if s.unwritten != [] { HeadIn(s.unwritten); assert false; }
    if s.written != [] { HeadIn(s.written); assert false; }
  }

  /** Taking one call out of a state that satisfies the invariant, and releasing for it. */
  lemma ReleaseKeepsLock(s: State, t: State, c: Call)
    requires LockInv(s) && s.Idle(c)
    requires t == s.(running := s.running - {c}) || t == s.(closing := s.closing - {c})
    requires |t.running| + |t.closing| == |s.running| + |s.closing| - 1
    ensures LockInv(Release(t))
  {
    if s.depth == 1 {
      assert t.running == {} && t.closing == {} && t.stuck == {};
      NoOwnerNoBatch(s, c);
      AdmitKeepsLock(t);
    }
  }

  lemma EnterKeepsLock(s: State, c: Call)
    requires LockInv(s) && c !in s.Active() && c !in s.queue
    requires s.current.None? || s.current.value == c.zone
    ensures LockInv(Enter(s, c))
  {
    assert |s.running + {c}| == |s.running| + 1;
    if s.depth == 0 {
      assert s.running == {} && s.closing == {} && s.stuck == {};
    }
  }

  lemma WaitKeepsLock(s: State, c: Call)
    requires LockInv(s) && c !in s.Active() && c !in s.queue
    requires s.current.Some? && s.current.value != c.zone
    ensures LockInv(s.(queue := s.queue + [c]))
  {
    var q := s.queue + [c];
    assert forall d :: d in q <==> d in s.queue || d == c;
    assert s.queue != [] ==> q[0] == s.queue[0];
  }

  lemma CloseKeepsLock(s: State, c: Call)
    requires LockInv(s) && c in s.running && s.depth == 1
    ensures LockInv(Closed(s, c))
  {
    assert |s.running - {c}| == |s.running| - 1;
    assert s.running - {c} == {} && s.closing == {} && s.stuck == {};
    assert s.closing + {c} == {c};
  }

  lemma SubmitKeepsLock(s: State, c: Call)
    requires LockInv(s) && (c in s.running || c in s.closing)
    ensures LockInv(Submit(s, c))
  {
  }

  /** Batches are dropped or passed on, their owners are still at work. */
  lemma BatchesMoveKeepsLock(s: State, t: State)
    requires LockInv(s) && t == s.(db := t.db, cache := t.cache, unwritten := t.unwritten, written := t.written)
    requires forall b | b in t.unwritten || b in t.written :: b in s.unwritten || b in s.written
    ensures LockInv(t)
  {
    hide NoDuplicates;
  }

  /** The owner of a refused batch gets stuck; no other batch is its own. */
  lemma StuckKeepsLock(s: State, c: Call)
    requires LockInv(s) && c in s.closing && s.Idle(c)
    ensures LockInv(s.(closing := s.closing - {c}, stuck := s.stuck + {c}))
  {
    hide NoDuplicates;
    assert |s.closing - {c}| == |s.closing| - 1 && |s.stuck + {c}| == |s.stuck| + 1;
  }

  lemma TailIn(s: State, x: Batch)
    requires s.unwritten != [] && x in s.unwritten[1..]
    ensures x in s.unwritten && (OneBatchPerCall(s) ==> x.owner != s.unwritten[0].owner)
  {
    var i :| 0 <= i < |s.unwritten| - 1 && s.unwritten[1..][i] == x;
    assert s.unwritten[i + 1] == x;
  }

  lemma OwnerIsIdleAfterwards(s: State)
    requires OneBatchPerCall(s) && s.unwritten != []
    ensures s.(unwritten := s.unwritten[1..]).Idle(s.unwritten[0].owner)
  {
    forall x | x in s.unwritten[1..] ensures x.owner != s.unwritten[0].owner { TailIn(s, x); }
  }

  lemma AnswerKeepsLock(s: State, accepted: bool)
    requires LockInv(s) && OneBatchPerCall(s) && s.unwritten != []
    ensures LockInv(Answered(s, accepted))
  {
    hide LockInv, OneBatchPerCall, DbWrite;
    var b := s.unwritten[0];
    var next := Answered(s, accepted);
    forall x | x in s.unwritten[1..] ensures x in s.unwritten { TailIn(s, x); }
    if accepted && DbWrite(s.db, b.data).Some? {
      BatchesMoveKeepsLock(s, next);
    } else {
      var rest := s.(unwritten := s.unwritten[1..]);
      BatchesMoveKeepsLock(s, rest);
      OwnerIsIdleAfterwards(s);
      if b.owner in s.closing { StuckKeepsLock(rest, b.owner); }
    }
  }

  lemma ArriveKeepsLock(s: State, c: Call)
    requires LockInv(s) && Enabled(s, Arrive(c))
    ensures LockInv(Arrived(s, c))
  {
    hide LockInv, NoDuplicates;
    if s.current.Some? && s.current.value != c.zone { WaitKeepsLock(s, c); } else { EnterKeepsLock(s, c); }
  }

  lemma StageKeepsLock(s: State, c: Call, w: Write)
    requires LockInv(s) && c in s.running
    ensures LockInv(StageBy(s, c, w))
  {
    hide Staged, Supports, NoDuplicates, Rejects;
    SubmitKeepsLock(s.(pending := Staged(s.pending, w)), c);
  }

  lemma FinishKeepsLock(s: State, c: Call, ok: bool)
    requires LockInv(s) && Enabled(s, BodyDone(c, ok))
    ensures LockInv(FinishBody(s, c, ok))
  {
    hide Release, Submit, NoDuplicates, Reverted;
    if s.depth == 1 {
      CloseKeepsLock(s, c);
      SubmitKeepsLock(Closed(s, c), c);
    } else {
      assert |s.running - {c}| == |s.running| - 1;
      ReleaseKeepsLock(s, s.(running := s.running - {c}), c);
    }
  }

  lemma LeaveKeepsLock(s: State, c: Call)
    requires LockInv(s) && Enabled(s, Leave(c))
    ensures LockInv(Left(s, c))
  {
    hide Release, LockInv;
    assert |s.closing - {c}| == |s.closing| - 1;
    ReleaseKeepsLock(s, s.(closing := s.closing - {c}), c);
  }

  /** The lock invariant: the zone is unset exactly at depth 0, the depth counts the calls entered
      and not left, all of them are in the current zone, and the first waiting call is blocked. */
  lemma StepKeepsLock(s: State, e: Event)
    requires LockInv(s) && OneBatchPerCall(s) && Enabled(s, e)
    ensures LockInv(Step(s, e))
  {
    hide LockInv, OneBatchPerCall, Arrived, StageBy, FinishBody, Answered, Left, CacheApply;
    match e
    case Arrive(c) => ArriveKeepsLock(s, c);
    case Stage(c, w) => StageKeepsLock(s, c, w);
    case BodyDone(c, ok) => FinishKeepsLock(s, c, ok);
    case DbDone(accepted) => AnswerKeepsLock(s, accepted);
    case Apply => BatchesMoveKeepsLock(s, Applied(s));
    case Leave(c) => LeaveKeepsLock(s, c);
  }

  lemma StepKeepsBatches(s: State, e: Event)
    requires OneBatchPerCall(s) && Enabled(s, e)
    ensures OneBatchPerCall(Step(s, e))
  {
    hide DbWrite, CacheApply, Staged, Reverted, Supports, RunLength;
  }

  // ---------- caches and database ----------

  lemma WriteKeepsMatch(c: Cache, db: Db, p: Pending)
    requires CacheMatches(c, db) && Keyed(p) && DbWrite(db, p).Some?
    ensures CacheMatches(CacheApply(c, p), DbWrite(db, p).value)
  {
    var c', db' := CacheApply(c, p), DbWrite(db, p).value;
    forall t | t in db'.triples
      ensures t.CacheKey() in c'.triples
    {
      forall id | id in p.kyberPreKeysToRemove
        ensures !StartsWith(t.CacheKey(), Prefix(id))
      {
        PrefixExact(t, id);
      }
    }
    forall k | k in c'.triples
      ensures exists t | t in db'.triples :: t.CacheKey() == k
    {
      if k in p.kyberTriples {
        assert p.kyberTriples[k] in db'.triples;
      } else {
        var t :| t in db.triples && t.CacheKey() == k;
        if t.id in p.kyberPreKeysToRemove {
          PrefixExact(t, t.id);
        }
        assert t in db'.triples;
      }
    }
  }

  lemma {:induction false} ReplayOneMore(c: Cache, bs: seq<Batch>, b: Batch)
    ensures Replay(c, bs + [b]) == CacheApply(Replay(c, bs), b.data)
    decreases |bs|
  {
    if bs != [] {
      assert (bs + [b])[1..] == bs[1..] + [b];
      ReplayOneMore(CacheApply(c, bs[0].data), bs[1..], b);
    }
  }

  lemma AnswerKeepsData(s: State, accepted: bool)
    requires DataInv(s) && s.unwritten != []
    ensures DataInv(Answered(s, accepted))
  {
    var b := s.unwritten[0];
    if accepted && DbWrite(s.db, b.data).Some? {
      ReplayOneMore(s.cache, s.written, b);
      WriteKeepsMatch(Replay(s.cache, s.written), s.db, b.data);
    }
  }

  lemma SubmitKeepsData(s: State, c: Call)
    requires DataInv(s)
    ensures DataInv(Submit(s, c))
  {
  }

  lemma StageKeepsData(s: State, c: Call, w: Write)
    requires DataInv(s)
    ensures DataInv(StageBy(s, c, w))
  {
    var staged := s.(pending := Staged(s.pending, w));
    assert Keyed(staged.pending);
    SubmitKeepsData(staged, c);
  }

  lemma FinishKeepsData(s: State, c: Call, ok: bool)
    requires DataInv(s)
    ensures DataInv(FinishBody(s, c, ok))
  {
    SubmitKeepsData(Closed(s, c), c);
    assert Keyed(Reverted(s.pending));
  }

  lemma ApplyKeepsData(s: State)
    requires DataInv(s) && s.written != []
    ensures DataInv(Applied(s))
  {
  }

  lemma StepKeepsData(s: State, e: Event)
    requires DataInv(s) && Enabled(s, e)
    ensures DataInv(Step(s, e))
  {
    match e
    case Arrive(c) =>
    case Stage(c, w) => StageKeepsData(s, c, w);
    case BodyDone(c, ok) => FinishKeepsData(s, c, ok);
    case DbDone(accepted) => AnswerKeepsData(s, accepted);
    case Apply => ApplyKeepsData(s);
    case Leave(c) =>
  }

  ghost predicate Valid(s: State) {
    Inv(s) && OneBatchPerCall(s)
  }

  lemma StepKeepsValid(s: State, e: Event)
    requires Valid(s) && Enabled(s, e)
    ensures Valid(Step(s, e))
  {
    StepKeepsLock(s, e);
    StepKeepsBatches(s, e);
    StepKeepsData(s, e);
  }

  /** All invariants hold after every run, whatever the calls, bodies and database do. */
  lemma {:induction false} RunKeepsInv(s: State, es: seq<Event>)
    requires Valid(s) && Runs(s, es)
    ensures Valid(Exec(s, es))
    decreases |es|
  {
    if es != [] {
      StepKeepsValid(s, es[0]);
      RunKeepsInv(Step(s, es[0]), es[1..]);
    }
  }

  /** Whenever no commit is in flight the caches say what the database says, and none is in
      flight while the lock is free. */
  lemma CachesAgreeAtRest(s: State, es: seq<Event>)
    requires Valid(s) && Runs(s, es)
    ensures Exec(s, es).depth == 0 ==> !Exec(s, es).InFlight()
    ensures !Exec(s, es).InFlight() ==> CacheMatches(Exec(s, es).cache, Exec(s, es).db)
  {
    RunKeepsInv(s, es);
    var t := Exec(s, es);
    if t.depth == 0 {
      assert t.running == {} && t.closing == {};
      if t.unwritten != [] { HeadIn(t.unwritten); assert false; }
      if t.written != [] { HeadIn(t.written); assert false; }
    }
  }
}
