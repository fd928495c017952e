/** Results about whole runs of the zone protocol: transactions are all-or-nothing, remembered
    triples are rejected, and waiting calls get their turn. */
module ZoneTransactions {
  import opened KyberTriples
  import opened Options
  import opened ZoneProtocol
  import opened ZoneSafety

  // ---------- readers ----------

  /** `loadSession`, `getSenderKey`, `loadPreKey`, `loadKyberPreKey`: pending changes go first. */
  function LoadSession(s: State, id: string): Option<Record> {
    if id in s.pending.sessions then Some(s.pending.sessions[id])
    else if id in s.cache.sessions then Some(s.cache.sessions[id]) else None
  }

  function GetSenderKey(s: State, id: string): Option<Record> {
    if id in s.pending.senderKeys then Some(s.pending.senderKeys[id])
    else if id in s.cache.senderKeys then Some(s.cache.senderKeys[id]) else None
  }

  function LoadPreKey(s: State, id: KeyId): Option<Record> {
    if id in s.pending.preKeysToRemove || id !in s.cache.preKeys then None else Some(s.cache.preKeys[id])
  }

  function LoadKyberPreKey(s: State, id: KeyId): Option<Record> {
    if id in s.pending.kyberPreKeysToRemove || id !in s.cache.kyberPreKeys then None
    else Some(s.cache.kyberPreKeys[id])
  }

  ghost predicate SameView(s: State, t: State) {
    && (forall id :: LoadSession(s, id) == LoadSession(t, id))
    && (forall id :: GetSenderKey(s, id) == GetSenderKey(t, id))
    && (forall id :: LoadPreKey(s, id) == LoadPreKey(t, id))
    && (forall id :: LoadKyberPreKey(s, id) == LoadKyberPreKey(t, id))
  }

  // ---------- all or nothing ----------

  /** The events while the body of `c` is running: anything may overlap, as long as every staged
      write is one that its zone keeps pending. */
  predicate WithinBody(c: Call, es: seq<Event>) {
    forall e | e in es :: (e.BodyDone? ==> e.call != c) && (e.Stage? ==> Supports(e.call.zone, e.write))
  }

  /** After the body: nobody stages anything more and the database refuses nothing. */
  predicate Quiet(es: seq<Event>) {
    forall e | e in es :: !e.Stage? && e != DbDone(false)
  }

  lemma StepWithinBody(s: State, c: Call, e: Event)
    requires LockInv(s) && Enabled(s, e) && WithinBody(c, [e])
    requires c in s.running && !s.InFlight()
    ensures c in Step(s, e).running && !Step(s, e).InFlight()
    ensures Step(s, e).db == s.db && Step(s, e).cache == s.cache
  {
    hide LockInv, Staged, DbWrite, CacheApply, Reverted, RunLength;
    assert e in [e];
    NotTheLastOne(s, c, e);
  }

  lemma NotTheLastOne(s: State, c: Call, e: Event)
    requires LockInv(s) && Enabled(s, e) && c in s.running
    ensures (e.BodyDone? && e.call != c) || e.Leave? ==> s.depth >= 2
  {
    if e.BodyDone? && e.call != c {
      assert {c, e.call} <= s.running && |{c, e.call}| == 2;
      SubsetSize({c, e.call}, s.running);
    } else if e.Leave? {
      SubsetSize({c}, s.running);
      SubsetSize({e.call}, s.closing);
    }
  }

  lemma SubsetSize(a: set<Call>, b: set<Call>)
    requires a <= b
    ensures |a| <= |b|
  {
    assert b == a + (b - a);
  }

  /** While the outermost body runs, the database and the stored cache data do not change. */
  lemma {:induction false} BodyWritesNothing(s: State, c: Call, es: seq<Event>)
    requires Valid(s) && Runs(s, es) && WithinBody(c, es)
    requires c in s.running && !s.InFlight()
    ensures c in Exec(s, es).running && !Exec(s, es).InFlight()
    ensures Exec(s, es).db == s.db && Exec(s, es).cache == s.cache
    decreases |es|
  {
    if es != [] {
      StepWithinBody(s, c, es[0]);
      StepKeepsValid(s, es[0]);
      BodyWritesNothing(Step(s, es[0]), c, es[1..]);
    }
  }

  /** Where a batch with data `p` can be on its way into `db` and `cache`. */
  ghost predicate Underway(s: State, p: Pending, db: Db, cache: Cache)
    requires DbWrite(db, p).Some?
  {
    && s.pending == NOTHING
    && match (|s.unwritten|, |s.written|)
       case (1, 0) => s.unwritten[0].data == p && s.db == db && s.cache == cache
       case (0, 1) => s.written[0].data == p && s.db == DbWrite(db, p).value && s.cache == cache
       case (0, 0) => s.db == DbWrite(db, p).value && s.cache == CacheApply(cache, p)
       case _ => false
  }

  lemma {:induction false} BatchArrives(s: State, es: seq<Event>, p: Pending, db: Db, cache: Cache)
    requires Runs(s, es) && Quiet(es)
    requires DbWrite(db, p).Some? && Underway(s, p, db, cache)
    ensures Underway(Exec(s, es), p, db, cache)
    decreases |es|
  {
    if es != [] {
      assert es[0] in es;
      BatchArrives(Step(s, es[0]), es[1..], p, db, cache);
    }
  }

  lemma NothingChangesNothing(db: Db, cache: Cache)
    ensures DbWrite(db, NOTHING) == Some(db) && CacheApply(cache, NOTHING) == cache
  {
    NothingWritten(db);
    NothingApplied(cache);
  }

  lemma NothingWritten(db: Db)
    ensures DbWrite(db, NOTHING) == Some(db)
  {
    var kept := set t | t in db.triples && t.id !in NOTHING.kyberPreKeysToRemove;
    assert kept == db.triples && kept + NOTHING.kyberTriples.Values == db.triples;
    assert db.kyberPreKeys - {} == db.kyberPreKeys && db.preKeys - {} == db.preKeys;
    assert db.senderKeys + map[] == db.senderKeys && db.sessions + map[] == db.sessions;
    assert db.unprocessed + map[] == db.unprocessed;
  }

  lemma NothingApplied(cache: Cache)
    ensures CacheApply(cache, NOTHING) == cache
  {
    assert cache.kyberPreKeys - {} == cache.kyberPreKeys && cache.preKeys - {} == cache.preKeys;
    assert cache.senderKeys + map[] == cache.senderKeys && cache.sessions + map[] == cache.sessions;
    assert WithoutPrefixes(cache.triples + NOTHING.kyberTriples.Keys, {}) == cache.triples;
  }

  /** Once the pending data are in the caches, readers see what they saw while it was pending. */
  lemma CommitKeepsView(s: State, t: State)
    requires t.cache == CacheApply(s.cache, s.pending) && t.pending == NOTHING
    ensures SameView(s, t)
  {
    hide WithoutPrefixes;
  }

  /** Success: everything staged goes out as one batch, and once it has arrived readers see what
      they saw just before the commit. `s` is the state when the call has entered with nothing
      pending, `body` its overlapping body, `after` the rest of the run. */
  lemma AllOrNothingSuccess(s: State, c: Call, body: seq<Event>, after: seq<Event>)
    requires Valid(s) && c in s.running && !s.InFlight() && s.pending == NOTHING
    requires Runs(s, body) && WithinBody(c, body)
    requires Exec(s, body).depth == 1
    requires DbWrite(s.db, Exec(s, body).pending).Some?
    requires Runs(FinishBody(Exec(s, body), c, true), after) && Quiet(after)
    ensures Enabled(Exec(s, body), BodyDone(c, true))
    ensures var before, end := Exec(s, body), Exec(FinishBody(Exec(s, body), c, true), after);
            !end.InFlight() ==>
              && end.db == DbWrite(s.db, before.pending).value
              && end.cache == CacheApply(s.cache, before.pending)
              && end.pending == NOTHING && SameView(before, end)
  {
    hide Inv, WithinBody, Quiet, DbWrite, CacheApply, SameView;
    BodyWritesNothing(s, c, body);
    var before := Exec(s, body);
    NothingChangesNothing(s.db, s.cache);
    BatchArrives(FinishBody(before, c, true), after, before.pending, s.db, s.cache);
    var end := Exec(FinishBody(before, c, true), after);
    if !end.InFlight() {
      CommitKeepsView(before, end);
    }
  }

  /** Failure: database, stored cache data and the view of readers are as on entry; of what was
      staged only the kyber triples survive. */
  lemma AllOrNothingFailure(s: State, c: Call, body: seq<Event>)
    requires Valid(s) && c in s.running && !s.InFlight() && s.pending == NOTHING
    requires Runs(s, body) && WithinBody(c, body)
    requires Exec(s, body).depth == 1
    ensures Enabled(Exec(s, body), BodyDone(c, false))
    ensures var end := Step(Exec(s, body), BodyDone(c, false));
            && end.db == s.db && end.cache == s.cache && !end.InFlight()
            && end.pending == NOTHING.(kyberTriples := Exec(s, body).pending.kyberTriples)
            && SameView(s, end)
  {
    BodyWritesNothing(s, c, body);
  }

  lemma Then(s: State, e: Event, es: seq<Event>)
    requires Enabled(s, e) && Runs(Step(s, e), es)
    ensures Runs(s, [e] + es) && Exec(s, [e] + es) == Exec(Step(s, e), es)
  {
    assert ([e] + es)[1..] == es;
  }

  lemma AloneAtDepthOne(s: State, c: Call)
    requires LockInv(s) && s.depth == 1 && (c in s.running || c in s.closing)
    ensures s.running + s.closing + s.stuck == {c} && s.current == Some(c.zone)
  {
    assert c in s.running ==> |s.running| >= 1 && |s.running - {c}| == |s.running| - 1;
    assert c in s.closing ==> |s.closing| >= 1 && |s.closing - {c}| == |s.closing| - 1;
  }

  lemma WrittenTriple(db: Db, p: Pending, t: KyberTriple)
    requires DbWrite(db, p).Some? && t in p.kyberTriples.Values
    ensures t in DbWrite(db, p).value.triples
  {
  }

  /** The exception is real: a triple marked by a call that threw is written by the next
      successful call, of whatever zone, although that call staged nothing. */
  lemma RevertedTripleIsWritten(s: State, c: Call, d: Call, t: KyberTriple)
    requires LockInv(s) && s.depth == 1 && c in s.running && !s.InFlight() && s.queue == []
    requires d !in s.Active()
    requires t in s.pending.kyberTriples.Values && DbWrite(s.db, Reverted(s.pending)).Some?
    ensures var run := [BodyDone(c, false)] + ([Leave(c)] + ([Arrive(d)] + ([BodyDone(d, true)] + [DbDone(true)])));
            Runs(s, run) && t in Exec(s, run).db.triples
  {
    hide LockInv, DbWrite, RunLength;
    AloneAtDepthOne(s, c);
    assert t in Reverted(s.pending).kyberTriples.Values && Reverted(s.pending) != NOTHING by {
      assert Reverted(s.pending).kyberTriples == s.pending.kyberTriples;
    }
    var s1 := Closed(s, c).(pending := Reverted(s.pending));
    var s2 := s1.(closing := s1.closing - {c}, depth := 0, current := None);
    var s3 := Enter(s2, d);
    var s4 := FinishBody(s3, d, true);
    assert s1 == Step(s, BodyDone(c, false));
    assert s2 == Step(s1, Leave(c));
    assert s3 == Step(s2, Arrive(d)) by {
      assert d !in s2.Active();
    }
    assert t in Answered(s4, true).db.triples by {
      WrittenTriple(s.db, Reverted(s.pending), t);
    }
    assert Runs(s4, [DbDone(true)]);
    Then(s3, BodyDone(d, true), [DbDone(true)]);
    Then(s2, Arrive(d), [BodyDone(d, true)] + [DbDone(true)]);
    Then(s1, Leave(c), [Arrive(d)] + ([BodyDone(d, true)] + [DbDone(true)]));
    Then(s, BodyDone(c, false), [Leave(c)] + ([Arrive(d)] + ([BodyDone(d, true)] + [DbDone(true)])));
  }

  // ---------- kyber triples ----------

  ghost predicate Remembered(s: State, t: KyberTriple) {
    || IsDuplicate(s, t)
    || (exists b | b in s.unwritten :: t.CacheKey() in b.data.kyberTriples)
    || (exists b | b in s.written :: t.CacheKey() in b.data.kyberTriples)
  }

  /** Nothing happens that makes the store forget `t`: no refused batch carries it and its kyber
      key is not removed. */
  predicate Keeps(s: State, e: Event, t: KyberTriple)
    requires Enabled(s, e)
  {
    match e
    case DbDone(accepted) =>
      t.CacheKey() in s.unwritten[0].data.kyberTriples ==>
        accepted && DbWrite(s.db, s.unwritten[0].data).Some?
    case Apply => t.id !in s.written[0].data.kyberPreKeysToRemove
    case _ => true
  }

  predicate KeepsAll(s: State, es: seq<Event>, t: KyberTriple)
    requires Runs(s, es)
    decreases |es|
  {
    es == [] || (Keeps(s, es[0], t) && KeepsAll(Step(s, es[0]), es[1..], t))
  }

  lemma BatchRemembers(s: State, t: KyberTriple, b: Batch)
    requires t.CacheKey() in b.data.kyberTriples && (b in s.unwritten || b in s.written)
    ensures Remembered(s, t)
  {
  }

  lemma SubmitRemembers(s: State, c: Call, t: KyberTriple)
    requires Remembered(s, t)
    ensures Remembered(Submit(s, c), t)
  {
    if s.pending != NOTHING {
      var next := Submit(s, c);
      if t.CacheKey() in s.pending.kyberTriples {
        BatchRemembers(next, t, Batch(c, s.pending));
      } else if t.CacheKey() !in s.cache.triples {
        if b :| b in s.unwritten && t.CacheKey() in b.data.kyberTriples {
          BatchRemembers(next, t, b);
        }
      }
    }
  }

  lemma ApplyRemembers(s: State, t: KyberTriple)
    requires Remembered(s, t) && s.written != [] && Keeps(s, Apply, t)
    ensures Remembered(Applied(s), t)
  {
    var head := s.written[0];
    forall id | id in head.data.kyberPreKeysToRemove
      ensures !StartsWith(t.CacheKey(), Prefix(id))
    {
      PrefixExact(t, id);
    }
    if !IsDuplicate(Applied(s), t) {
      if b :| b in s.unwritten && t.CacheKey() in b.data.kyberTriples {
        BatchRemembers(Applied(s), t, b);
      } else {
        var b :| b in s.written && t.CacheKey() in b.data.kyberTriples;
        assert b != head;
        BatchRemembers(Applied(s), t, b);
      }
    }
  }

  lemma AnswerRemembers(s: State, accepted: bool, t: KyberTriple)
    requires Remembered(s, t) && s.unwritten != [] && Keeps(s, DbDone(accepted), t)
    ensures Remembered(Answered(s, accepted), t)
  {
    var next := Answered(s, accepted);
    if !IsDuplicate(next, t) {
      if b :| b in s.unwritten && t.CacheKey() in b.data.kyberTriples {
        assert b == s.unwritten[0] || b in s.unwritten[1..];
        BatchRemembers(next, t, b);
      } else {
        var b :| b in s.written && t.CacheKey() in b.data.kyberTriples;
        BatchRemembers(next, t, b);
      }
    }
  }

  lemma StepRemembers(s: State, e: Event, t: KyberTriple)
    requires Enabled(s, e) && Keeps(s, e, t) && Remembered(s, t)
    ensures Remembered(Step(s, e), t)
  {
    match e
    case Arrive(c) =>
    case Stage(c, w) =>
      if !Rejects(s, w) {
        var staged := s.(pending := Staged(s.pending, w));
        assert Remembered(staged, t);
        SubmitRemembers(staged, c, t);
      }
    case BodyDone(c, ok) =>
      assert Remembered(Closed(s, c), t);
      SubmitRemembers(Closed(s, c), c, t);
      assert Remembered(Closed(s, c).(pending := Reverted(s.pending)), t);
    case DbDone(accepted) => AnswerRemembers(s, accepted, t);
    case Apply => ApplyRemembers(s, t);
    case Leave(c) =>
  }

  /** A triple once accepted is rejected at every later time when no commit is in flight, also
      when the call that marked it was reverted, until its key is removed. */
  lemma {:induction false} AcceptedTripleStaysRejected(s: State, es: seq<Event>, t: KyberTriple)
    requires Runs(s, es) && KeepsAll(s, es, t) && Remembered(s, t)
    ensures Remembered(Exec(s, es), t)
    ensures !Exec(s, es).InFlight() ==> Rejects(Exec(s, es), MarkTriple(t))
    decreases |es|
  {
    if es != [] {
      StepRemembers(s, es[0], t);
      AcceptedTripleStaysRejected(Step(s, es[0]), es[1..], t);
    }
  }

  /** A second batch with a triple that the first one wrote is refused as a whole. */
  lemma SecondCopyIsRefused(db: Db, first: Pending, second: Pending, t: KyberTriple)
    requires Keyed(first) && Keyed(second) && DbWrite(db, first).Some?
    requires t.CacheKey() in first.kyberTriples && t.CacheKey() in second.kyberTriples
    requires t.id !in second.kyberPreKeysToRemove
    ensures DbWrite(DbWrite(db, first).value, second).None?
  {
    CacheKeyInjective(first.kyberTriples[t.CacheKey()], t);
    CacheKeyInjective(second.kyberTriples[t.CacheKey()], t);
    assert t in DbWrite(db, first).value.triples;
  }

  // ---------- progress ----------

  /** Events that finish work already begun. */
  predicate Finishing(e: Event) {
    !e.Arrive? && !e.Stage?
  }

  function Weight(s: State): nat {
    5 * |s.queue| + 4 * |s.running| + |s.closing| + 2 * |s.unwritten| + |s.written|
  }

  lemma ReleaseDecreases(s: State, t: State, c: Call)
    requires LockInv(s)
    requires || (t == s.(running := s.running - {c}) && c in s.running && s.depth != 1)
             || (t == s.(closing := s.closing - {c}) && c in s.closing)
    ensures Weight(Release(t)) < Weight(s)
    ensures exists k: nat :: k <= |s.queue| && Release(t).queue == s.queue[k..]
  {
    assert t.running != s.running ==> |t.running| == |s.running| - 1;
    assert t.closing != s.closing ==> |t.closing| == |s.closing| - 1;
    if s.depth == 1 && s.queue != [] {
      var n := RunLength(s.queue);
      MembersCount(s.queue[..n]);
      assert t.running == {} && t.running + Members(s.queue[..n]) == Members(s.queue[..n]);
      assert Release(t).queue == s.queue[n..];
    } else {
      assert Release(t).queue == s.queue[0..];
    }
  }

  lemma CloseDecreases(s: State, c: Call, ok: bool)
    requires LockInv(s) && c in s.running && s.depth == 1
    ensures Weight(FinishBody(s, c, ok)) < Weight(s)
  {
    assert |s.running - {c}| == |s.running| - 1;
    assert s.closing == {} && |s.closing + {c}| == 1;
  }

  lemma AnswerDecreases(s: State, accepted: bool)
    requires LockInv(s) && s.unwritten != []
    ensures Weight(Answered(s, accepted)) < Weight(s)
  {
    var b := s.unwritten[0];
    assert b.owner in s.closing ==> |s.closing - {b.owner}| == |s.closing| - 1;
  }

  lemma FinishingDecreases(s: State, e: Event)
    requires LockInv(s) && Enabled(s, e) && Finishing(e)
    ensures Weight(Step(s, e)) < Weight(s)
    ensures exists k: nat :: k <= |s.queue| && Step(s, e).queue == s.queue[k..]
  {
    assert s.queue == s.queue[0..];
    match e
    case BodyDone(c, ok) =>
      if s.depth == 1 { CloseDecreases(s, c, ok); } else { ReleaseDecreases(s, s.(running := s.running - {c}), c); }
    case DbDone(accepted) => AnswerDecreases(s, accepted);
    case Apply =>
    case Leave(c) => ReleaseDecreases(s, s.(closing := s.closing - {c}), c);
  }

  /** Without new calls and new writes there are only finitely many steps. */
  lemma {:induction false} FinishingRunsEnd(s: State, es: seq<Event>)
    requires Valid(s) && Runs(s, es) && forall e | e in es :: Finishing(e)
    ensures |es| + Weight(Exec(s, es)) <= Weight(s)
    decreases |es|
  {
    if es != [] {
      assert es[0] in es;
      FinishingDecreases(s, es[0]);
      StepKeepsValid(s, es[0]);
      FinishingRunsEnd(Step(s, es[0]), es[1..]);
    }
  }

  /** The queue is served from the front. */
  lemma {:induction false} ServedInOrder(s: State, es: seq<Event>)
    requires Valid(s) && Runs(s, es) && forall e | e in es :: Finishing(e)
    ensures exists k: nat :: k <= |s.queue| && Exec(s, es).queue == s.queue[k..]
    decreases |es|
  {
    if es == [] {
      assert s.queue == s.queue[0..];
    } else {
      assert es[0] in es;
      FinishingDecreases(s, es[0]);
      StepKeepsValid(s, es[0]);
      var t := Step(s, es[0]);
      var k: nat :| k <= |s.queue| && t.queue == s.queue[k..];
      ServedInOrder(t, es[1..]);
      var n: nat :| n <= |t.queue| && Exec(t, es[1..]).queue == t.queue[n..];
      assert s.queue[k..][n..] == s.queue[k + n..];
    }
  }

  /** As long as a call is active and none is stuck, some step is possible. */
  lemma SomethingCanFinish(s: State) returns (e: Event)
    requires LockInv(s) && s.depth > 0 && s.stuck == {}
    ensures Finishing(e) && Enabled(s, e)
  {
    if s.unwritten != [] {
      return DbDone(true);
    } else if s.written != [] {
      return Apply;
    } else if s.running != {} {
      var c :| c in s.running;
      return BodyDone(c, true);
    } else {
      var c :| c in s.closing;
      return Leave(c);
    }
  }

  /** The commit of a call whose body is over is refused: the only event after which a call never leaves. */
  predicate RefusesClosing(s: State, e: Event)
    requires Enabled(s, e)
  {
    && e.DbDone? && s.unwritten[0].owner in s.closing
    && !(e.accepted && DbWrite(s.db, s.unwritten[0].data).Some?)
  }

  predicate NeverRefusesClosing(s: State, es: seq<Event>)
    requires Runs(s, es)
    decreases |es|
  {
    es == [] || (!RefusesClosing(s, es[0]) && NeverRefusesClosing(Step(s, es[0]), es[1..]))
  }

  lemma AnswerSticks(s: State, accepted: bool)
    requires s.unwritten != [] && s.closing !! s.stuck
    ensures s.stuck <= Answered(s, accepted).stuck
    ensures Answered(s, accepted).stuck == s.stuck <==> !RefusesClosing(s, DbDone(accepted))
  {
    hide DbWrite;
  }

  lemma ReleaseLeavesStuck(s: State)
    ensures Release(s).stuck == s.stuck
  {
    hide RunLength;
  }

  lemma StuckByRefusal(s: State, e: Event)
    requires LockInv(s) && Enabled(s, e)
    ensures s.stuck <= Step(s, e).stuck
    ensures Step(s, e).stuck == s.stuck <==> !RefusesClosing(s, e)
  {
    hide Answered, Release, DbWrite, Staged, CacheApply, Reverted;
    match e
    case DbDone(accepted) => AnswerSticks(s, accepted);
    case BodyDone(c, _) => ReleaseLeavesStuck(s.(running := s.running - {c}));
    case Leave(c) => ReleaseLeavesStuck(s.(closing := s.closing - {c}));
    case _ =>
  }

  /** Calls get stuck by such refusals and by nothing else. */
  lemma {:induction false} StuckGrowsExactly(s: State, es: seq<Event>)
    requires Valid(s) && Runs(s, es)
    ensures s.stuck <= Exec(s, es).stuck
    ensures Exec(s, es).stuck == s.stuck <==> NeverRefusesClosing(s, es)
    decreases |es|
  {
    hide Valid, LockInv, RefusesClosing;
    if es != [] {
      ValidLock(s);
      StuckByRefusal(s, es[0]);
      StepKeepsValid(s, es[0]);
      StuckGrowsExactly(Step(s, es[0]), es[1..]);
    }
  }

  lemma ValidLock(s: State)
    requires Valid(s)
    ensures LockInv(s)
  {
  }

  /** `c` is let in at some point of the run. */
  ghost predicate EntersDuring(s: State, es: seq<Event>, c: Call) {
    exists i :: 0 <= i <= |es| && Runs(s, es[..i]) && c in Exec(s, es[..i]).running
  }

  lemma ReleaseLetsIn(s: State, c: Call)
    requires c in s.queue && c !in Release(s).queue
    ensures c in Release(s).running
  {
    var n := RunLength(s.queue);
    assert s.queue == s.queue[..n] + s.queue[n..];
    assert c in s.queue[..n];
  }

  lemma OutOfQueueIsIn(s: State, e: Event, c: Call)
    requires Enabled(s, e) && c in s.queue && c !in Step(s, e).queue
    ensures c in Step(s, e).running
  {
    hide Release, DbWrite, Staged, CacheApply, Reverted, RunLength;
    match e
    case BodyDone(d, _) => ReleaseLetsIn(s.(running := s.running - {d}), c);
    case Leave(d) => ReleaseLetsIn(s.(closing := s.closing - {d}), c);
    case _ =>
  }

  lemma {:induction false} QueuedCallEnters(s: State, es: seq<Event>, c: Call)
    requires Valid(s) && Runs(s, es) && c in s.queue && c !in Exec(s, es).queue
    ensures EntersDuring(s, es, c)
    decreases |es|
  {
    hide Valid, LockInv, Step, Enabled;
    var t := Step(s, es[0]);
    StepKeepsValid(s, es[0]);
    if c in t.queue {
      QueuedCallEnters(t, es[1..], c);
      var i :| 0 <= i <= |es[1..]| && Runs(t, es[1..][..i]) && c in Exec(t, es[1..][..i]).running;
      assert es[..i + 1][1..] == es[1..][..i] && es[..i + 1][0] == es[0];
      assert Runs(s, es[..i + 1]) && c in Exec(s, es[..i + 1]).running;
    } else {
      OutOfQueueIsIn(s, es[0], c);
      assert es[..1][1..] == [] && es[..1][0] == es[0];
      assert Runs(t, []) && Runs(s, es[..1]) && Exec(s, es[..1]) == t;
    }
  }

  /** Every waiting call gets in: a run that goes on as long as something can be finished lets in each
      call of the queue, and ends with an empty queue and a free lock, if and only if no commit after
      a body is refused on the way. */
  lemma EveryWaitingCallEnters(s: State, es: seq<Event>)
    requires Valid(s) && s.stuck == {}
    requires Runs(s, es) && forall e | e in es :: Finishing(e)
    requires forall e :: Finishing(e) ==> !Enabled(Exec(s, es), e)
    ensures |es| <= Weight(s)
    ensures NeverRefusesClosing(s, es) ==>
              && (forall c | c in s.queue :: EntersDuring(s, es, c))
              && Exec(s, es).queue == [] && Exec(s, es).current.None?
    ensures !NeverRefusesClosing(s, es) ==> Exec(s, es).current.Some?
  {
    hide EntersDuring, NeverRefusesClosing;
    FinishingRunsEnd(s, es);
    RunKeepsInv(s, es);
    StuckGrowsExactly(s, es);
    var t := Exec(s, es);
    if t.stuck == {} {
      if t.depth > 0 {
        var e := SomethingCanFinish(t);
        assert false;
      }
      forall c | c in s.queue ensures EntersDuring(s, es, c) {
        QueuedCallEnters(s, es, c);
      }
    } else {
      var c :| c in t.stuck;
    }
  }

  /** The last call out of a zone admits the longest run of waiting calls of one zone, in the
      order of arrival. */
  lemma LastOneAdmits(s: State, c: Call)
    requires LockInv(s) && s.depth == 1 && Enabled(s, Leave(c)) && s.queue != []
    ensures var t := Step(s, Leave(c)); var n := |s.queue| - |t.queue|;
            && 0 < n <= |s.queue| && t.queue == s.queue[n..]
            && t.running == (set d | d in s.queue[..n]) && t.current == Some(s.queue[0].zone)
            && (forall i :: 0 <= i < n ==> s.queue[i].zone == s.queue[0].zone)
            && (n < |s.queue| ==> s.queue[n].zone != s.queue[0].zone)
  {
    assert s.running == {};
    var n := RunLength(s.queue);
    assert Step(s, Leave(c)).queue == s.queue[n..];
    assert s.running + Members(s.queue[..n]) == Members(s.queue[..n]);
  }

  lemma StuckHoldsLock(s: State, e: Event)
    requires LockInv(s) && Enabled(s, e) && s.stuck != {}
    ensures s.depth >= 1 && s.current.Some? && (e.BodyDone? || e.Leave? ==> s.depth >= 2)
  {
    assert |s.stuck| > 0;
    if e.BodyDone? {
      SubsetSize({e.call}, s.running);
    } else if e.Leave? {
      SubsetSize({e.call}, s.closing);
    }
  }

  lemma StuckStep(s: State, e: Event)
    requires LockInv(s) && Enabled(s, e) && s.stuck != {}
    ensures s.stuck <= Step(s, e).stuck && Step(s, e).current == s.current && s.queue <= Step(s, e).queue
  {
    hide LockInv, Staged, DbWrite, CacheApply, Reverted, RunLength;
    StuckHoldsLock(s, e);
  }

  /** A refused commit after a body is never repaired: the zone stays locked in every continuation
      and calls that wait stay in the queue. */
  lemma {:induction false} StuckForever(s: State, es: seq<Event>)
    requires Valid(s) && Runs(s, es) && s.stuck != {}
    ensures s.stuck <= Exec(s, es).stuck && Exec(s, es).current == s.current
    ensures s.queue <= Exec(s, es).queue
    decreases |es|
  {
    if es != [] {
      StuckStep(s, es[0]);
      StepKeepsValid(s, es[0]);
      StuckForever(Step(s, es[0]), es[1..]);
    }
  }
}
