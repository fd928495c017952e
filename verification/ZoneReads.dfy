/** What staged writes do: for the readers at once, and for the tables once the zone is committed. */
module ZoneReads {
  import opened KyberTriples
  import opened Options
  import opened ZoneProtocol
  import opened ZoneSafety
  import opened ZoneTransactions

  function Got(m: map<string, Record>, k: string): Option<Record> { if k in m then Some(m[k]) else None }

  // ---------- one write ----------

  /** The four readers after a write: these sessions and sender keys are new, these keys are gone, and
      everything else reads as before. */
  ghost predicate ReadsWith(s: State, t: State, sessions: map<string, Record>, senderKeys: map<string, Record>,
                            preKeysGone: set<KeyId>, kyberPreKeysGone: set<KeyId>) {
    && (forall id :: LoadSession(t, id) == if id in sessions then Some(sessions[id]) else LoadSession(s, id))
    && (forall id :: GetSenderKey(t, id) == if id in senderKeys then Some(senderKeys[id]) else GetSenderKey(s, id))
    && (forall id :: LoadPreKey(t, id) == if id in preKeysGone then None else LoadPreKey(s, id))
    && (forall id :: LoadKyberPreKey(t, id) == if id in kyberPreKeysGone then None else LoadKyberPreKey(s, id))
  }

  /** The write waits for the commit: nothing but the pending data changed. */
  predicate Waits(s: State, t: State) { t == s.(pending := t.pending) }

  /** The write did not wait: all that was pending, and the write, are on their way. */
  predicate GoesOut(s: State, t: State, c: Call, data: Pending) {
    t == s.(pending := NOTHING, unwritten := s.unwritten + [Batch(c, data)])
  }

  lemma SessionIsRead(s: State, c: Call, id: string, record: Record)
    requires Enabled(s, Stage(c, StoreSession(id, record)))
    ensures var t := Step(s, Stage(c, StoreSession(id, record)));
            if c.zone.options.sessions then
              && Waits(s, t) && ReadsWith(s, t, map[id := record], map[], {}, {})
              && t.pending.unprocessed == s.pending.unprocessed && t.pending.kyberTriples == s.pending.kyberTriples
            else GoesOut(s, t, c, s.pending.(sessions := s.pending.sessions[id := record]))
  {
    assert id in s.pending.sessions[id := record];
  }

  lemma SenderKeyIsRead(s: State, c: Call, id: string, record: Record)
    requires Enabled(s, Stage(c, SaveSenderKey(id, record)))
    ensures var t := Step(s, Stage(c, SaveSenderKey(id, record)));
            if c.zone.options.senderKeys then
              && Waits(s, t) && ReadsWith(s, t, map[], map[id := record], {}, {})
              && t.pending.unprocessed == s.pending.unprocessed && t.pending.kyberTriples == s.pending.kyberTriples
            else GoesOut(s, t, c, s.pending.(senderKeys := s.pending.senderKeys[id := record]))
  {
    assert id in s.pending.senderKeys[id := record];
  }

  lemma PreKeysAreGone(s: State, c: Call, ids: set<KeyId>)
    requires Enabled(s, Stage(c, RemovePreKeys(ids)))
    ensures var t := Step(s, Stage(c, RemovePreKeys(ids)));
            if c.zone.options.preKeysToRemove then
              && Waits(s, t) && ReadsWith(s, t, map[], map[], ids, {})
              && t.pending.unprocessed == s.pending.unprocessed && t.pending.kyberTriples == s.pending.kyberTriples
            else if ids == {} && s.pending == NOTHING then t == s
            else GoesOut(s, t, c, s.pending.(preKeysToRemove := s.pending.preKeysToRemove + ids))
  {
    NothingMore(s.pending.preKeysToRemove, ids);
  }

  lemma KyberPreKeysAreGone(s: State, c: Call, ids: set<KeyId>)
    requires Enabled(s, Stage(c, RemoveKyberPreKeys(ids)))
    ensures var t := Step(s, Stage(c, RemoveKyberPreKeys(ids)));
            if c.zone.options.kyberPreKeysToRemove then
              && Waits(s, t) && ReadsWith(s, t, map[], map[], {}, ids)
              && t.pending.unprocessed == s.pending.unprocessed && t.pending.kyberTriples == s.pending.kyberTriples
            else if ids == {} && s.pending == NOTHING then t == s
            else GoesOut(s, t, c, s.pending.(kyberPreKeysToRemove := s.pending.kyberPreKeysToRemove + ids))
  {
    NothingMore(s.pending.kyberPreKeysToRemove, ids);
  }

  lemma NothingMore(a: set<KeyId>, b: set<KeyId>)
    ensures a + b == {} <==> a == {} && b == {}
  {
  }

  lemma UnprocessedIsAdded(s: State, c: Call, items: map<string, Record>)
    requires Enabled(s, Stage(c, AddUnprocessed(items)))
    ensures var t := Step(s, Stage(c, AddUnprocessed(items)));
            if c.zone.options.unprocessed then
              && Waits(s, t) && ReadsWith(s, t, map[], map[], {}, {}) && t.pending.kyberTriples == s.pending.kyberTriples
              && forall id :: Got(t.pending.unprocessed, id)
                           == if id in items then Some(items[id]) else Got(s.pending.unprocessed, id)
            else if items == map[] && s.pending == NOTHING then t == s
            else GoesOut(s, t, c, s.pending.(unprocessed := s.pending.unprocessed + items))
  {
    assert (s.pending.unprocessed + items).Keys == s.pending.unprocessed.Keys + items.Keys;
    assert items == map[] ==> s.pending.unprocessed + items == s.pending.unprocessed;
  }

  /** A triple that is cached or pending already changes nothing. */
  lemma TripleIsMarked(s: State, c: Call, triple: KyberTriple)
    requires Enabled(s, Stage(c, MarkTriple(triple)))
    ensures var t := Step(s, Stage(c, MarkTriple(triple)));
            var marked := s.pending.kyberTriples[triple.CacheKey() := triple];
            if triple.CacheKey() in s.cache.triples || triple.CacheKey() in s.pending.kyberTriples then t == s
            else if c.zone.options.kyberPreKeysToRemove then
              && Waits(s, t) && ReadsWith(s, t, map[], map[], {}, {}) && t.pending.kyberTriples == marked
              && t.pending.unprocessed == s.pending.unprocessed
            else GoesOut(s, t, c, s.pending.(kyberTriples := marked))
  {
    assert triple.CacheKey() in s.pending.kyberTriples[triple.CacheKey() := triple];
  }

  // ---------- the writes of a body ----------

  /** The last record stored for `id` among the events, if there is one. */
  function LastSession(es: seq<Event>, id: string): Option<Record>
    decreases |es|
  {
    if es == [] then None
    else if LastSession(es[1..], id).Some? then LastSession(es[1..], id)
    else
      match es[0]
      case Stage(_, StoreSession(x, record)) => if x == id then Some(record) else None
      case _ => None
  }

  function LastSenderKey(es: seq<Event>, id: string): Option<Record>
    decreases |es|
  {
    if es == [] then None
    else if LastSenderKey(es[1..], id).Some? then LastSenderKey(es[1..], id)
    else
      match es[0]
      case Stage(_, SaveSenderKey(x, record)) => if x == id then Some(record) else None
      case _ => None
  }

  function LastUnprocessed(es: seq<Event>, id: string): Option<Record>
    decreases |es|
  {
    if es == [] then None
    else if LastUnprocessed(es[1..], id).Some? then LastUnprocessed(es[1..], id)
    else
      match es[0]
      case Stage(_, AddUnprocessed(items)) => Got(items, id)
      case _ => None
  }

  predicate RemovesPreKey(es: seq<Event>, id: KeyId) {
    exists e | e in es :: e.Stage? && e.write.RemovePreKeys? && id in e.write.ids
  }

  predicate RemovesKyberPreKey(es: seq<Event>, id: KeyId) {
    exists e | e in es :: e.Stage? && e.write.RemoveKyberPreKeys? && id in e.write.ids
  }

  predicate Marks(es: seq<Event>, t: KyberTriple) {
    exists e | e in es :: e.Stage? && e.write == MarkTriple(t)
  }

  function Later(newer: Option<Record>, older: Option<Record>): Option<Record> {
    if newer.Some? then newer else older
  }

  /** What is pending after the events, from what was pending before. */
  ghost predicate RecordsCollected(p: Pending, es: seq<Event>, q: Pending) {
    && (forall id :: Got(q.sessions, id) == Later(LastSession(es, id), Got(p.sessions, id)))
    && (forall id :: Got(q.senderKeys, id) == Later(LastSenderKey(es, id), Got(p.senderKeys, id)))
    && (forall id :: Got(q.unprocessed, id) == Later(LastUnprocessed(es, id), Got(p.unprocessed, id)))
  }

  ghost predicate KeysCollected(p: Pending, cached: set<string>, es: seq<Event>, q: Pending) {
    && (forall id :: id in q.preKeysToRemove <==> id in p.preKeysToRemove || RemovesPreKey(es, id))
    && (forall id :: id in q.kyberPreKeysToRemove <==> id in p.kyberPreKeysToRemove || RemovesKyberPreKey(es, id))
    && (forall t: KyberTriple :: t.CacheKey() in q.kyberTriples
          <==> t.CacheKey() in p.kyberTriples || (Marks(es, t) && t.CacheKey() !in cached))
  }

  lemma OneEvent(es: seq<Event>, id: KeyId, t: KyberTriple)
    requires es != []
    ensures var e := es[0];
            && (RemovesPreKey(es, id) <==> RemovesPreKey([e], id) || RemovesPreKey(es[1..], id))
            && (RemovesKyberPreKey(es, id) <==> RemovesKyberPreKey([e], id) || RemovesKyberPreKey(es[1..], id))
            && (Marks(es, t) <==> Marks([e], t) || Marks(es[1..], t))
            && (RemovesPreKey([e], id) <==> e.Stage? && e.write.RemovePreKeys? && id in e.write.ids)
            && (RemovesKyberPreKey([e], id) <==> e.Stage? && e.write.RemoveKyberPreKeys? && id in e.write.ids)
            && (Marks([e], t) <==> e.Stage? && e.write == MarkTriple(t))
  {
    assert es[0] in [es[0]];
    assert es == [es[0]] + es[1..];
  }

  /** One event within a body, seen from what is pending. */
  lemma PendingWithin(s: State, c: Call, e: Event)
    requires LockInv(s) && Enabled(s, e) && WithinBody(c, [e]) && c in s.running && !s.InFlight()
    ensures Step(s, e).pending == AfterOne(s.pending, s.cache.triples, e)
  {
    hide LockInv, Staged, RunLength;
    assert e in [e];
    NotTheLastOne(s, c, e);
  }

  function AfterOne(p: Pending, cached: set<string>, e: Event): Pending {
    if !e.Stage? then p
    else if e.write.MarkTriple? && (e.write.triple.CacheKey() in cached || e.write.triple.CacheKey() in p.kyberTriples) then p
    else Staged(p, e.write)
  }

  lemma SessionOneMore(p: Pending, cached: set<string>, es: seq<Event>, id: string)
    requires es != []
    ensures Later(LastSession(es, id), Got(p.sessions, id))
         == Later(LastSession(es[1..], id), Got(AfterOne(p, cached, es[0]).sessions, id))
  {
    hide Triple.CacheKey;
  }

  lemma SenderKeyOneMore(p: Pending, cached: set<string>, es: seq<Event>, id: string)
    requires es != []
    ensures Later(LastSenderKey(es, id), Got(p.senderKeys, id))
         == Later(LastSenderKey(es[1..], id), Got(AfterOne(p, cached, es[0]).senderKeys, id))
  {
    hide Triple.CacheKey;
  }

  lemma UnprocessedOneMore(p: Pending, cached: set<string>, es: seq<Event>, id: string)
    requires es != []
    ensures Later(LastUnprocessed(es, id), Got(p.unprocessed, id))
         == Later(LastUnprocessed(es[1..], id), Got(AfterOne(p, cached, es[0]).unprocessed, id))
  {
    hide Triple.CacheKey;
  }

  lemma RecordsOneMore(p: Pending, cached: set<string>, es: seq<Event>, q: Pending)
    requires es != [] && RecordsCollected(AfterOne(p, cached, es[0]), es[1..], q)
    ensures RecordsCollected(p, es, q)
  {
    hide AfterOne, LastSession, LastSenderKey, LastUnprocessed, Later;
    forall id: string ensures Got(q.sessions, id) == Later(LastSession(es, id), Got(p.sessions, id)) {
      SessionOneMore(p, cached, es, id);
    }
    forall id: string ensures Got(q.senderKeys, id) == Later(LastSenderKey(es, id), Got(p.senderKeys, id)) {
      SenderKeyOneMore(p, cached, es, id);
    }
    forall id: string ensures Got(q.unprocessed, id) == Later(LastUnprocessed(es, id), Got(p.unprocessed, id)) {
      UnprocessedOneMore(p, cached, es, id);
    }
  }

  lemma KeyOneMore(p: Pending, cached: set<string>, es: seq<Event>, id: KeyId)
    requires es != []
    ensures var p1 := AfterOne(p, cached, es[0]);
            && (id in p.preKeysToRemove || RemovesPreKey(es, id) <==> id in p1.preKeysToRemove || RemovesPreKey(es[1..], id))
            && (id in p.kyberPreKeysToRemove || RemovesKyberPreKey(es, id)
                <==> id in p1.kyberPreKeysToRemove || RemovesKyberPreKey(es[1..], id))
  {
    hide RemovesPreKey, RemovesKyberPreKey, Marks, Triple.CacheKey;
    OneEvent(es, id, Triple(SOME_KEY, 0, []));
  }

  lemma TripleOneMore(p: Pending, cached: set<string>, es: seq<Event>, t: KyberTriple)
    requires es != []
    ensures t.CacheKey() in p.kyberTriples || (Marks(es, t) && t.CacheKey() !in cached)
            <==> t.CacheKey() in AfterOne(p, cached, es[0]).kyberTriples || (Marks(es[1..], t) && t.CacheKey() !in cached)
  {
    hide RemovesPreKey, RemovesKyberPreKey, Marks, Triple.CacheKey;
    OneEvent(es, t.id, t);
    if es[0].Stage? && es[0].write.MarkTriple? && es[0].write.triple.CacheKey() == t.CacheKey() {
      CacheKeyInjective(es[0].write.triple, t);
    }
  }

  lemma KeysOneMore(p: Pending, cached: set<string>, es: seq<Event>, q: Pending)
    requires es != [] && KeysCollected(AfterOne(p, cached, es[0]), cached, es[1..], q)
    ensures KeysCollected(p, cached, es, q)
  {
    hide AfterOne, RemovesPreKey, RemovesKyberPreKey, Marks;
    forall id: KeyId ensures id in q.preKeysToRemove <==> id in p.preKeysToRemove || RemovesPreKey(es, id) {
      KeyOneMore(p, cached, es, id);
    }
    forall id: KeyId ensures id in q.kyberPreKeysToRemove <==> id in p.kyberPreKeysToRemove || RemovesKyberPreKey(es, id) {
      KeyOneMore(p, cached, es, id);
    }
    forall t: KyberTriple
      ensures t.CacheKey() in q.kyberTriples <==> t.CacheKey() in p.kyberTriples || (Marks(es, t) && t.CacheKey() !in cached)
    {
      TripleOneMore(p, cached, es, t);
    }
  }

  lemma {:induction false} BodyCollects(s: State, c: Call, es: seq<Event>)
    requires Valid(s) && Runs(s, es) && WithinBody(c, es) && c in s.running && !s.InFlight()
    ensures RecordsCollected(s.pending, es, Exec(s, es).pending)
    ensures KeysCollected(s.pending, s.cache.triples, es, Exec(s, es).pending)
    decreases |es|
  {
    hide Valid, LockInv, AfterOne, Step, Enabled, RecordsCollected, KeysCollected;
    if es == [] {
      NothingCollected(s.pending, s.cache.triples);
    } else {
      var t, q := Step(s, es[0]), Exec(s, es).pending;
      ValidLock(s);
      PendingWithin(s, c, es[0]);
      StepWithinBody(s, c, es[0]);
      StepKeepsValid(s, es[0]);
      BodyCollects(t, c, es[1..]);
      RecordsOneMore(s.pending, s.cache.triples, es, q);
      KeysOneMore(s.pending, s.cache.triples, es, q);
    }
  }

  lemma NothingCollected(p: Pending, cached: set<string>)
    ensures RecordsCollected(p, [], p) && KeysCollected(p, cached, [], p)
  {
  }

  // ---------- the tables after the commit ----------

  /** The marks of a body that the table of triples can take: each new triple belongs to a key that is
      there and stays. */
  ghost predicate CanBeMarked(db: Db, es: seq<Event>) {
    forall t | Marks(es, t) && t !in db.triples :: t.id in db.kyberPreKeys && !RemovesKyberPreKey(es, t.id)
  }

  lemma CachedIsInTable(c: Cache, db: Db, t: KyberTriple)
    requires CacheMatches(c, db)
    ensures t.CacheKey() in c.triples <==> t in db.triples
  {
    hide Triple.CacheKey;
    if t.CacheKey() in c.triples {
      var u :| u in db.triples && u.CacheKey() == t.CacheKey();
      CacheKeyInjective(t, u);
    }
  }

  /** What is pending at the end of a body that began with nothing pending. */
  ghost predicate Ends(s: State, es: seq<Event>, q: Pending) {
    && RecordsCollected(NOTHING, es, q) && KeysCollected(NOTHING, s.cache.triples, es, q)
    && Keyed(q) && CacheMatches(s.cache, s.db)
  }

  lemma BodyEnds(s: State, c: Call, es: seq<Event>)
    requires Valid(s) && Runs(s, es) && WithinBody(c, es) && c in s.running && !s.InFlight() && s.pending == NOTHING
    ensures Ends(s, es, Exec(s, es).pending)
  {
    hide LockInv, RecordsCollected, KeysCollected, CacheMatches;
    BodyCollects(s, c, es);
    RunKeepsInv(s, es);
  }

  lemma PendingTriple(s: State, es: seq<Event>, q: Pending, t: KyberTriple)
    requires Ends(s, es, q)
    ensures t in q.kyberTriples.Values <==> Marks(es, t) && t !in s.db.triples
    ensures t in q.kyberTriples.Values ==> t.CacheKey() in q.kyberTriples && q.kyberTriples[t.CacheKey()] == t
  {
    hide Triple.CacheKey, Marks, RecordsCollected, CacheMatches;
    CachedIsInTable(s.cache, s.db, t);
    if t.CacheKey() in q.kyberTriples { CacheKeyInjective(t, q.kyberTriples[t.CacheKey()]); }
  }

  /** The database takes the batch of a body if and only if it can take its marks. */
  lemma AcceptedExactly(s: State, es: seq<Event>, q: Pending)
    requires Ends(s, es, q)
    ensures DbWrite(s.db, q).Some? <==> CanBeMarked(s.db, es)
  {
    hide Triple.CacheKey, Marks, RemovesKyberPreKey, RecordsCollected, CacheMatches;
    forall t: KyberTriple
      ensures t in q.kyberTriples.Values <==> Marks(es, t) && t !in s.db.triples
    {
      PendingTriple(s, es, q, t);
    }
    assert forall k | k in q.kyberTriples :: q.kyberTriples[k] in q.kyberTriples.Values;
    if CanBeMarked(s.db, es) {
      forall k | k in q.kyberTriples
        ensures q.kyberTriples[k] !in s.db.triples && q.kyberTriples[k].id in s.db.kyberPreKeys - q.kyberPreKeysToRemove
      {
        assert Marks(es, q.kyberTriples[k]);
      }
    } else {
      var t: KyberTriple :| Marks(es, t) && t !in s.db.triples
                            && (t.id !in s.db.kyberPreKeys || RemovesKyberPreKey(es, t.id));
      PendingTriple(s, es, q, t);
    }
  }

  /** The tables `e` after a body over `d`: the last record for each id, without the removed keys and their
      triples, and with the marked triples. */
  ghost predicate RecordsReached(d: Db, es: seq<Event>, e: Db) {
    && (forall id :: Got(e.sessions, id) == Later(LastSession(es, id), Got(d.sessions, id)))
    && (forall id :: Got(e.senderKeys, id) == Later(LastSenderKey(es, id), Got(d.senderKeys, id)))
    && (forall id :: Got(e.unprocessed, id) == Later(LastUnprocessed(es, id), Got(d.unprocessed, id)))
  }

  ghost predicate KeysReached(d: Db, es: seq<Event>, e: Db) {
    && (forall id :: id in e.preKeys <==> id in d.preKeys && !RemovesPreKey(es, id))
    && (forall id :: id in e.preKeys ==> e.preKeys[id] == d.preKeys[id])
    && (forall id :: id in e.kyberPreKeys <==> id in d.kyberPreKeys && !RemovesKyberPreKey(es, id))
    && (forall id :: id in e.kyberPreKeys ==> e.kyberPreKeys[id] == d.kyberPreKeys[id])
    && (forall t :: t in e.triples <==> !RemovesKyberPreKey(es, t.id) && (t in d.triples || Marks(es, t)))
  }

  lemma RecordTables(d: Db, es: seq<Event>, q: Pending)
    requires RecordsCollected(NOTHING, es, q) && DbWrite(d, q).Some?
    ensures RecordsReached(d, es, DbWrite(d, q).value)
  {
    hide LastSession, LastSenderKey, LastUnprocessed, Triple.CacheKey;
  }

  lemma KeyTables(s: State, es: seq<Event>, q: Pending)
    requires Ends(s, es, q) && DbWrite(s.db, q).Some?
    ensures KeysReached(s.db, es, DbWrite(s.db, q).value)
  {
    hide Triple.CacheKey, Marks, RemovesKyberPreKey, RemovesPreKey, RecordsCollected, CacheMatches;
    AcceptedExactly(s, es, q);
    var e := DbWrite(s.db, q).value;
    forall t: KyberTriple
      ensures t in e.triples <==> !RemovesKyberPreKey(es, t.id) && (t in s.db.triples || Marks(es, t))
    {
      PendingTriple(s, es, q, t);
    }
  }

  /** With nothing pending, the readers return what is in the tables. */
  ghost predicate ReadsTables(s: State) {
    && (forall id :: LoadSession(s, id) == Got(s.db.sessions, id))
    && (forall id :: GetSenderKey(s, id) == Got(s.db.senderKeys, id))
    && (forall id :: LoadPreKey(s, id) == if id in s.db.preKeys then Some(s.db.preKeys[id]) else None)
    && (forall id :: LoadKyberPreKey(s, id) == if id in s.db.kyberPreKeys then Some(s.db.kyberPreKeys[id]) else None)
  }

  lemma MatchedIsRead(s: State)
    requires Valid(s) && !s.InFlight() && s.pending == NOTHING
    ensures ReadsTables(s)
  {
    hide LockInv;
  }

  /** Over a whole transaction: the batch of a body is accepted if and only if its marks can be taken, and
      then the tables hold exactly its writes and what was there, and the readers read the tables. */
  lemma BodyReachesTables(s: State, c: Call, body: seq<Event>, after: seq<Event>)
    requires Valid(s) && c in s.running && !s.InFlight() && s.pending == NOTHING
    requires Runs(s, body) && WithinBody(c, body) && Exec(s, body).depth == 1
    ensures Enabled(Exec(s, body), BodyDone(c, true))
    ensures DbWrite(s.db, Exec(s, body).pending).Some? <==> CanBeMarked(s.db, body)
    ensures CanBeMarked(s.db, body) && Runs(Step(Exec(s, body), BodyDone(c, true)), after) && Quiet(after) ==>
              var end := Exec(Step(Exec(s, body), BodyDone(c, true)), after);
              !end.InFlight() ==> RecordsReached(s.db, body, end.db) && KeysReached(s.db, body, end.db) && ReadsTables(end)
  {
    hide Valid, Ends, RecordsReached, KeysReached, CanBeMarked, WithinBody, Quiet, DbWrite, ReadsTables, Closed, Submit;
    var before := Exec(s, body);
    BodyEnds(s, c, body);
    AcceptedExactly(s, body, before.pending);
    BodyWritesNothing(s, c, body);
    var next := Step(before, BodyDone(c, true));
    if CanBeMarked(s.db, body) && Runs(next, after) && Quiet(after) {
      TransactionEnds(s, c, body, after);
    }
  }

  lemma TransactionEnds(s: State, c: Call, body: seq<Event>, after: seq<Event>)
    requires Valid(s) && c in s.running && !s.InFlight() && s.pending == NOTHING
    requires Runs(s, body) && WithinBody(c, body) && Exec(s, body).depth == 1 && CanBeMarked(s.db, body)
    requires Enabled(Exec(s, body), BodyDone(c, true))
    requires Runs(Step(Exec(s, body), BodyDone(c, true)), after) && Quiet(after)
    ensures var end := Exec(Step(Exec(s, body), BodyDone(c, true)), after);
            !end.InFlight() ==> RecordsReached(s.db, body, end.db) && KeysReached(s.db, body, end.db) && ReadsTables(end)
  {
    hide Valid, RecordsCollected, KeysCollected, RecordsReached, KeysReached, CanBeMarked, WithinBody, Quiet, DbWrite,
      ReadsTables, Closed, Submit, CacheMatches, Keyed;
    var q := Exec(s, body).pending;
    BodyEnds(s, c, body);
    AcceptedExactly(s, body, q);
    RecordTables(s.db, body, q);
    KeyTables(s, body, q);
    AllOrNothingSuccess(s, c, body, after);
    RunKeepsInv(s, body);
    StepKeepsValid(Exec(s, body), BodyDone(c, true));
    RunKeepsInv(Step(Exec(s, body), BodyDone(c, true)), after);
    var end := Exec(Step(Exec(s, body), BodyDone(c, true)), after);
    if !end.InFlight() { MatchedIsRead(end); }
  }

  /** While the body runs, it reads its own writes first. */
  lemma BodyReadsOwnWrites(s: State, c: Call, body: seq<Event>)
    requires Valid(s) && c in s.running && !s.InFlight() && s.pending == NOTHING && Runs(s, body) && WithinBody(c, body)
    ensures var t := Exec(s, body);
            && (forall id :: LoadSession(t, id) == Later(LastSession(body, id), Got(s.db.sessions, id)))
            && (forall id :: GetSenderKey(t, id) == Later(LastSenderKey(body, id), Got(s.db.senderKeys, id)))
            && (forall id :: LoadPreKey(t, id) == if RemovesPreKey(body, id) then None else LoadPreKey(s, id))
            && (forall id :: LoadKyberPreKey(t, id) == if RemovesKyberPreKey(body, id) then None else LoadKyberPreKey(s, id))
  {
    hide Valid, RemovesPreKey, RemovesKyberPreKey, LastSession, LastSenderKey, LastUnprocessed, Marks;
    BodyEnds(s, c, body);
    BodyWritesNothing(s, c, body);
  }
}
