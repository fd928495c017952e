/** Runs that reach the limits of the zone protocol, and the exact conditions behind them: a zone that is
    never left, a triple that passes the check twice, and writes that outlive the lock. */
module ZoneRuns {
  import opened KyberTriples
  import opened Options
  import opened ZoneProtocol
  import opened ZoneSafety
  import opened ZoneTransactions

  // ---------- a refused commit ----------

  /** From every state in which the outermost body is about to end with something pending, one answer of
      the database leads to a call that never leaves. */
  lemma RefusedCommitSticks(s: State, c: Call)
    requires Valid(s) && s.depth == 1 && c in s.running && !s.InFlight() && s.pending != NOTHING
    ensures var run := [BodyDone(c, true)] + ([DbDone(false)] + []);
            Runs(s, run) && Exec(s, run).stuck == {c} && Exec(s, run).current == Some(c.zone)
            && Exec(s, run).queue == s.queue
  {
    hide DbWrite, RunLength, DataInv;
    AloneAtDepthOne(s, c);
    var s1 := FinishBody(s, c, true);
    assert s1 == Step(s, BodyDone(c, true)) && s1.unwritten == [Batch(c, s.pending)];
    Then(s1, DbDone(false), []);
    Then(s, BodyDone(c, true), [DbDone(false)] + []);
  }

  /** And from then on, whatever happens: the zone is locked and nobody who waits gets in. */
  lemma RefusedCommitLocksForever(s: State, c: Call, es: seq<Event>)
    requires Valid(s) && s.depth == 1 && c in s.running && !s.InFlight() && s.pending != NOTHING
    requires Runs(s, [BodyDone(c, true)] + ([DbDone(false)] + []))
    requires Runs(Exec(s, [BodyDone(c, true)] + ([DbDone(false)] + [])), es)
    ensures var t := Exec(Exec(s, [BodyDone(c, true)] + ([DbDone(false)] + [])), es);
            t.current == Some(c.zone) && s.queue <= t.queue
  {
    hide Valid, Runs, Exec;
    RefusedCommitSticks(s, c);
    RunKeepsInv(s, [BodyDone(c, true)] + ([DbDone(false)] + []));
    StuckForever(Exec(s, [BodyDone(c, true)] + ([DbDone(false)] + [])), es);
  }

  // ---------- a triple marked twice ----------

  function OnlyTriple(t: KyberTriple): Pending {
    NOTHING.(kyberTriples := map[t.CacheKey() := t])
  }

  /** In a zone that does not keep triples pending, the commit of the first mark is under way when the
      second one is checked. */
  ghost predicate MayMarkTwice(s: State, c: Call, d: Call, t: KyberTriple) {
    && Valid(s) && c in s.running && !s.InFlight() && s.pending == NOTHING && !IsDuplicate(s, t)
    && !Supports(c.zone, MarkTriple(t)) && d.zone == c.zone && d !in s.Active() && d !in s.queue
  }

  function TwoMarks(c: Call, d: Call, t: KyberTriple): seq<Event> {
    [Stage(c, MarkTriple(t))] + ([Arrive(d)] + ([Stage(d, MarkTriple(t))] + []))
  }

  lemma MarkedOnce(s: State, c: Call, t: KyberTriple)
    requires s.pending == NOTHING && !IsDuplicate(s, t) && !Supports(c.zone, MarkTriple(t))
    ensures StageBy(s, c, MarkTriple(t)) == s.(unwritten := s.unwritten + [Batch(c, OnlyTriple(t))])
  {
    assert t.CacheKey() in OnlyTriple(t).kyberTriples;
    assert NOTHING.kyberTriples[t.CacheKey() := t] == map[t.CacheKey() := t];
  }

  /** Both marks pass: two batches with the same triple are on their way. */
  lemma SecondMarkPasses(s: State, c: Call, d: Call, t: KyberTriple)
    requires MayMarkTwice(s, c, d, t)
    ensures Runs(s, TwoMarks(c, d, t))
    ensures var u := Exec(s, TwoMarks(c, d, t));
            && u == s.(running := s.running + {d}, depth := s.depth + 1,
                       unwritten := [Batch(c, OnlyTriple(t)), Batch(d, OnlyTriple(t))])
  {
    hide StageBy, DataInv, Staged, Submit, OnlyTriple;
    var mark := MarkTriple(t);
    InZone(s, c);
    MarkedOnce(s, c, t);
    var s1 := StageBy(s, c, mark);
    var s2 := Enter(s1, d);
    assert s1 == Step(s, Stage(c, mark)) && s2 == Step(s1, Arrive(d));
    MarkedOnce(s2, d, t);
    var s3 := StageBy(s2, d, mark);
    assert Enabled(s2, Stage(d, mark)) && s3 == Step(s2, Stage(d, mark));
    assert [] + [Batch(c, OnlyTriple(t))] + [Batch(d, OnlyTriple(t))] == [Batch(c, OnlyTriple(t)), Batch(d, OnlyTriple(t))];
    Then(s2, Stage(d, mark), []);
    Then(s1, Arrive(d), [Stage(d, mark)] + []);
    Then(s, Stage(c, mark), [Arrive(d)] + ([Stage(d, mark)] + []));
  }

  lemma InZone(s: State, c: Call)
    requires Valid(s) && c in s.running
    ensures s.current == Some(c.zone) && s.depth > 0
  {
    assert |s.running| > 0;
  }

  /** The database then takes the first batch and refuses the second: its triple is there once, and the
      second call has lost what it staged. */
  lemma SecondMarkIsRefused(s: State, c: Call, d: Call, t: KyberTriple)
    requires MayMarkTwice(s, c, d, t) && DbWrite(s.db, OnlyTriple(t)).Some?
    ensures Runs(s, TwoMarks(c, d, t)) && Runs(Exec(s, TwoMarks(c, d, t)), [DbDone(true)] + ([DbDone(true)] + []))
    ensures var u := Exec(Exec(s, TwoMarks(c, d, t)), [DbDone(true)] + ([DbDone(true)] + []));
            && t in u.db.triples && u.db == DbWrite(s.db, OnlyTriple(t)).value
            && u.unwritten == [] && u.written == [Batch(c, OnlyTriple(t))] && d in u.running
            && !Rejects(u, MarkTriple(t))
  {
    hide DbWrite, DataInv, OnlyTriple, TwoMarks;
    SecondMarkPasses(s, c, d, t);
    var u := Exec(s, TwoMarks(c, d, t));
    OnlyTripleHasIt(t);
    SecondCopyIsRefused(s.db, OnlyTriple(t), OnlyTriple(t), t);
    WrittenTriple(s.db, OnlyTriple(t), t);
    var u1, u2 := Answered(u, true), Answered(Answered(u, true), true);
    assert u1.unwritten == [Batch(d, OnlyTriple(t))] && d !in u1.closing;
    assert u2 == u1.(unwritten := []);
    Then(u1, DbDone(true), []);
    Then(u, DbDone(true), [DbDone(true)] + []);
  }

  lemma OnlyTripleHasIt(t: KyberTriple)
    ensures var p := OnlyTriple(t);
            Keyed(p) && t.CacheKey() in p.kyberTriples && t in p.kyberTriples.Values && t.id !in p.kyberPreKeysToRemove
  {
    assert OnlyTriple(t).kyberTriples[t.CacheKey()] == t;
  }

  // ---------- when the check misses a triple of the database ----------

  /** A batch that the database took, but that is not applied to the caches yet, brings the triple. */
  ghost predicate BroughtBy(bs: seq<Batch>, t: KyberTriple, i: nat) {
    && i < |bs| && t.CacheKey() in bs[i].data.kyberTriples
    && forall j | i <= j < |bs| :: t.id !in bs[j].data.kyberPreKeysToRemove
  }

  lemma TripleAfterApply(c: Cache, p: Pending, t: KyberTriple)
    ensures t.CacheKey() in CacheApply(c, p).triples <==>
              (t.CacheKey() in c.triples || t.CacheKey() in p.kyberTriples) && t.id !in p.kyberPreKeysToRemove
  {
    if t.id in p.kyberPreKeysToRemove {
      PrefixExact(t, t.id);
    }
    forall id | id in p.kyberPreKeysToRemove && StartsWith(t.CacheKey(), Prefix(id))
      ensures id == t.id
    {
      PrefixExact(t, id);
    }
  }

  ghost predicate NoneRemoves(bs: seq<Batch>, t: KyberTriple) {
    forall b | b in bs :: t.id !in b.data.kyberPreKeysToRemove
  }

  lemma FirstBatch(bs: seq<Batch>, t: KyberTriple)
    requires bs != []
    ensures NoneRemoves(bs, t) <==> t.id !in bs[0].data.kyberPreKeysToRemove && NoneRemoves(bs[1..], t)
    ensures (exists i: nat :: BroughtBy(bs, t, i)) <==>
              || (t.CacheKey() in bs[0].data.kyberTriples && NoneRemoves(bs, t))
              || exists i: nat :: BroughtBy(bs[1..], t, i)
  {
    assert bs == [bs[0]] + bs[1..];
    if i: nat :| BroughtBy(bs[1..], t, i) {
      assert forall j | i + 1 <= j < |bs| :: bs[1..][j - 1] == bs[j];
      assert BroughtBy(bs, t, i + 1);
    }
    if i: nat :| BroughtBy(bs, t, i) {
      assert forall j | 0 <= j < |bs| - 1 :: bs[1..][j] == bs[j + 1];
      if i > 0 { assert BroughtBy(bs[1..], t, i - 1); }
    }
    if t.CacheKey() in bs[0].data.kyberTriples && NoneRemoves(bs, t) {
      assert BroughtBy(bs, t, 0);
    }
  }

  lemma {:induction false} TripleAfterReplay(c: Cache, bs: seq<Batch>, t: KyberTriple)
    ensures t.CacheKey() in Replay(c, bs).triples <==>
              || (t.CacheKey() in c.triples && NoneRemoves(bs, t))
              || exists i: nat :: BroughtBy(bs, t, i)
    decreases |bs|
  {
    hide CacheApply;
    if bs != [] {
      hide BroughtBy, NoneRemoves;
      TripleAfterReplay(CacheApply(c, bs[0].data), bs[1..], t);
      TripleAfterApply(c, bs[0].data, t);
      FirstBatch(bs, t);
    }
  }

  /** In every reachable state: the duplicate check lets a triple of the database pass if and only if the
      triple is neither pending nor cached and comes with a batch that is written but not yet applied. */
  lemma MissedExactlyBeforeApply(s: State, es: seq<Event>, t: KyberTriple)
    requires Valid(s) && Runs(s, es)
    ensures var u := Exec(s, es);
            t in u.db.triples && !Rejects(u, MarkTriple(t)) <==>
              && t.CacheKey() !in u.pending.kyberTriples && t.CacheKey() !in u.cache.triples
              && exists i: nat :: BroughtBy(u.written, t, i)
  {
    hide Runs, Exec, LockInv, OneBatchPerCall, BroughtBy, Replay;
    RunKeepsInv(s, es);
    var u := Exec(s, es);
    InDatabase(u, t);
    TripleAfterReplay(u.cache, u.written, t);
  }

  lemma InDatabase(s: State, t: KyberTriple)
    requires Valid(s)
    ensures t in s.db.triples <==> t.CacheKey() in Replay(s.cache, s.written).triples
  {
    hide LockInv, OneBatchPerCall, Replay, Keyed;
    if t.CacheKey() in Replay(s.cache, s.written).triples {
      var u :| u in s.db.triples && u.CacheKey() == t.CacheKey();
      CacheKeyInjective(u, t);
    }
  }

  // ---------- writes after the body ----------

  /** A call of the same zone that stages while the outermost commit is on its way leaves its write
      pending when the lock is given up. */
  lemma LateWriteStaysPending(s: State, c: Call, d: Call, w: Write)
    requires Valid(s) && s.depth == 1 && c in s.running && !s.InFlight() && s.queue == [] && s.pending != NOTHING
    requires DbWrite(s.db, s.pending).Some? && d != c && d.zone == c.zone && Supports(d.zone, w)
    requires !Rejects(s.(pending := NOTHING), w)
    ensures var run := [BodyDone(c, true)] + ([Arrive(d)] + ([Stage(d, w)] + ([BodyDone(d, true)]
                       + ([DbDone(true)] + ([Apply] + ([Leave(c)] + []))))));
            Runs(s, run) && Exec(s, run).depth == 0 && Exec(s, run).pending == Staged(NOTHING, w)
  {
    hide DbWrite, CacheApply, Staged, DataInv, Supports, RunLength;
    AloneAtDepthOne(s, c);
    var s1 := FinishBody(s, c, true);
    assert s1.unwritten == [Batch(c, s.pending)] && s1.pending == NOTHING;
    var s2 := Enter(s1, d);
    var s3 := s2.(pending := Staged(NOTHING, w));
    var s4 := s3.(running := s3.running - {d}, depth := 1);
    LateSteps(s1, s2, s3, s4, c, d, w);
    CommitEnds(s4, c, s.pending);
    hide Runs, Exec, Step, Enabled;
    Then(s3, BodyDone(d, true), [DbDone(true)] + ([Apply] + ([Leave(c)] + [])));
    Then(s2, Stage(d, w), [BodyDone(d, true)] + ([DbDone(true)] + ([Apply] + ([Leave(c)] + []))));
    Then(s1, Arrive(d), [Stage(d, w)] + ([BodyDone(d, true)] + ([DbDone(true)] + ([Apply] + ([Leave(c)] + [])))));
    Then(s, BodyDone(c, true), [Arrive(d)] + ([Stage(d, w)] + ([BodyDone(d, true)] + ([DbDone(true)]
                               + ([Apply] + ([Leave(c)] + []))))));
  }

  /** The rest of an undisturbed commit, and the end of the lock. */
  lemma CommitEnds(s: State, c: Call, p: Pending)
    requires s.depth == 1 && s.queue == [] && s.closing == {c} && s.unwritten == [Batch(c, p)] && s.written == []
    requires DbWrite(s.db, p).Some?
    ensures var run := [DbDone(true)] + ([Apply] + ([Leave(c)] + []));
            Runs(s, run) && Exec(s, run).depth == 0 && Exec(s, run).pending == s.pending
  {
    hide DbWrite, CacheApply, RunLength;
    var s5 := s.(db := DbWrite(s.db, p).value, unwritten := [], written := [Batch(c, p)]);
    var s6 := s5.(cache := CacheApply(s5.cache, p), written := []);
    assert s5 == Step(s, DbDone(true)) && s6 == Step(s5, Apply);
    Then(s6, Leave(c), []);
    Then(s5, Apply, [Leave(c)] + []);
    Then(s, DbDone(true), [Apply] + ([Leave(c)] + []));
  }

  lemma LateSteps(s1: State, s2: State, s3: State, s4: State, c: Call, d: Call, w: Write)
    requires s1.depth == 1 && s1.current == Some(c.zone) && s1.pending == NOTHING && s1.queue == []
    requires s1.running == {} && s1.closing == {c} && s1.stuck == {} && d != c && d.zone == c.zone
    requires (forall b | b in s1.unwritten :: b.owner == c) && s1.written == []
    requires Supports(d.zone, w) && !Rejects(s1, w)
    requires s2 == Enter(s1, d) && s3 == s2.(pending := Staged(NOTHING, w))
    requires s4 == s3.(running := s3.running - {d}, depth := 1)
    ensures Enabled(s1, Arrive(d)) && s2 == Step(s1, Arrive(d))
    ensures Enabled(s2, Stage(d, w)) && s3 == Step(s2, Stage(d, w))
    ensures Enabled(s3, BodyDone(d, true)) && s4 == Step(s3, BodyDone(d, true))
  {
    hide Staged, Supports, RunLength;
  }

  predicate IsEmptyWrite(w: Write) {
    match w
    case RemoveKyberPreKeys(ids) => ids == {}
    case RemovePreKeys(ids) => ids == {}
    case AddUnprocessed(items) => items == map[]
    case _ => false
  }

  function StagedAll(ws: seq<Write>): Pending {
    if ws == [] then NOTHING else Staged(StagedAll(ws[..|ws| - 1]), ws[|ws| - 1])
  }

  /** The writes accepted during `es`, after those in `acc`, and since the last one that was committed at
      once. */
  function LateWrites(acc: seq<Write>, s: State, es: seq<Event>): seq<Write>
    requires Runs(s, es)
    decreases |es|
  {
    if es == [] then acc
    else
      var e := es[0];
      var next := if !e.Stage? || Rejects(s, e.write) then acc
                  else if Supports(e.call.zone, e.write) then acc + [e.write] else [];
      LateWrites(next, Step(s, e), es[1..])
  }

  lemma StagedEmpty(p: Pending, w: Write)
    ensures Staged(p, w) == NOTHING <==> p == NOTHING && IsEmptyWrite(w)
  {
    match w
    case RemoveKyberPreKeys(ids) => assert p.kyberPreKeysToRemove + ids == {} <==> p.kyberPreKeysToRemove == {} && ids == {};
    case RemovePreKeys(ids) => assert p.preKeysToRemove + ids == {} <==> p.preKeysToRemove == {} && ids == {};
    case SaveSenderKey(id, data) => assert id in p.senderKeys[id := data];
    case StoreSession(id, data) => assert id in p.sessions[id := data];
    case AddUnprocessed(items) =>
      assert (p.unprocessed + items).Keys == p.unprocessed.Keys + items.Keys;
      assert p.unprocessed + items == map[] <==> p.unprocessed == map[] && items == map[];
    case MarkTriple(t) => assert t.CacheKey() in p.kyberTriples[t.CacheKey() := t];
  }

  lemma {:induction false} StagedAllEmpty(ws: seq<Write>)
    ensures StagedAll(ws) == NOTHING <==> forall w | w in ws :: IsEmptyWrite(w)
  {
    hide Staged, IsEmptyWrite;
    if ws != [] {
      var init, last := ws[..|ws| - 1], ws[|ws| - 1];
      StagedAllEmpty(init);
      StagedEmpty(StagedAll(init), last);
      assert ws == init + [last];
    }
  }

  /** While `c` is at its commit, no other call commits or reverts. */
  lemma ClosingIsDeep(s: State, c: Call, d: Call)
    requires LockInv(s) && (c in s.closing || c in s.stuck) && d in s.running
    ensures s.depth >= 2
  {
    SubsetSize({d}, s.running);
    if c in s.closing { SubsetSize({c}, s.closing); } else { SubsetSize({c}, s.stuck); }
  }

  lemma ClosingStays(s: State, c: Call, e: Event)
    requires (c in s.closing || c in s.stuck) && Enabled(s, e) && e != Leave(c) && (e.BodyDone? ==> s.depth >= 2)
    ensures var t := Step(s, e); c in t.closing || c in t.stuck
  {
    hide Staged, DbWrite, CacheApply, Reverted, RunLength, Rejects, Supports;
  }

  lemma ClosingHolds(s: State, c: Call, e: Event)
    requires LockInv(s) && (c in s.closing || c in s.stuck) && Enabled(s, e) && e != Leave(c)
    ensures e.BodyDone? ==> s.depth >= 2
    ensures var t := Step(s, e); c in t.closing || c in t.stuck
  {
    hide LockInv, Step;
    if e.BodyDone? { ClosingIsDeep(s, c, e.call); }
    ClosingStays(s, c, e);
  }

  lemma PendingStep(s: State, acc: seq<Write>, e: Event)
    requires Enabled(s, e) && s.pending == StagedAll(acc) && (e.BodyDone? ==> s.depth >= 2)
    ensures Step(s, e).pending ==
              if !e.Stage? || Rejects(s, e.write) then StagedAll(acc)
              else if Supports(e.call.zone, e.write) then StagedAll(acc + [e.write]) else NOTHING
  {
    hide Staged, DbWrite, CacheApply, Supports, RunLength, Rejects;
    if e.Stage? {
      assert (acc + [e.write])[..|acc|] == acc;
    }
  }

  lemma {:induction false} PendingIsLate(s: State, c: Call, acc: seq<Write>, es: seq<Event>)
    requires Valid(s) && (c in s.closing || c in s.stuck) && s.pending == StagedAll(acc)
    requires Runs(s, es) && Leave(c) !in es
    ensures Exec(s, es).pending == StagedAll(LateWrites(acc, s, es))
    decreases |es|
  {
    hide Valid, LockInv, Step, Enabled, Supports, Rejects, StagedAll;
    if es != [] {
      ValidLock(s);
      assert es[0] in es;
      ClosingHolds(s, c, es[0]);
      PendingStep(s, acc, es[0]);
      NothingStaged();
      StepKeepsValid(s, es[0]);
      var e := es[0];
      var next := if !e.Stage? || Rejects(s, e.write) then acc
                  else if Supports(e.call.zone, e.write) then acc + [e.write] else [];
      PendingIsLate(Step(s, e), c, next, es[1..]);
    }
  }

  lemma NothingStaged()
    ensures StagedAll([]) == NOTHING
  {
  }

  /** Nothing is pending when the outermost call leaves if and only if nothing was staged after its body,
      or all of it was committed at once, empty writes aside. */
  lemma NothingPendingExactly(s: State, c: Call, es: seq<Event>)
    requires Valid(s) && c in s.closing && s.pending == NOTHING
    requires Runs(s, es) && Leave(c) !in es && Enabled(Exec(s, es), Leave(c))
    ensures Step(Exec(s, es), Leave(c)).pending == NOTHING <==> forall w | w in LateWrites([], s, es) :: IsEmptyWrite(w)
  {
    hide Valid, Runs, Exec, LateWrites, StagedAll, IsEmptyWrite;
    NothingStaged();
    PendingIsLate(s, c, [], es);
    StagedAllEmpty(LateWrites([], s, es));
  }
}
