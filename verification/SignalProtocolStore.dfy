/** The store object: the fields that the zone code updates in place, one method for each stretch
    of code between two awaits. The ghost fields are its surroundings: which calls are where, the
    database, and the batches on their way. */
module SignalProtocolStore {
  import opened KyberTriples
  import opened Options
  import opened ZoneProtocol
  import opened ZoneSafety

  /** The surroundings of the store: which calls are where, the database and the batches under way. */
  datatype World = World(
    running: set<Call>, closing: set<Call>, stuck: set<Call>, db: Db, unwritten: seq<Batch>, written: seq<Batch>)

  class Store {
    var currentZone: Option<Zone>
    var currentZoneDepth: int
    var zoneQueue: seq<Call>
    var pending: Pending
    var caches: Cache
    ghost var world: World

    ghost function View(): State
      reads this
    {
      State(currentZone, currentZoneDepth, zoneQueue, world.running, world.closing, world.stuck,
            pending, caches, world.db, world.unwritten, world.written)
    }

    /** A start: nothing pending, caches filled from the database. */
    constructor (ghost initial: Db, cache: Cache)
      requires CacheMatches(cache, initial)
      ensures Valid(View()) && View().db == initial && View().cache == cache && View().pending == NOTHING
      ensures currentZone.None? && zoneQueue == []
    {
      currentZone, currentZoneDepth, zoneQueue := None, 0, [];
      pending, caches := NOTHING, cache;
      world := World({}, {}, {}, initial, [], []);
    }

    method EnterZone(c: Call)
      requires currentZoneDepth == 0 ==> currentZone.None?
      modifies this
      ensures View() == Enter(old(View()), c)
    {
      currentZoneDepth := currentZoneDepth + 1;
      if currentZoneDepth == 1 {
        assert currentZone.None?;  // 'Should not be in the zone'
        currentZone := Some(c.zone);
      }
      world := world.(running := world.running + {c});
    }

    /** Waits when another zone holds the lock, otherwise enters and starts the body. */
    method WithZone(c: Call)
      requires currentZoneDepth == 0 ==> currentZone.None?
      modifies this
      ensures View() == Arrived(old(View()), c)
    {
      if currentZone.Some? && currentZone.value != c.zone {
        zoneQueue := zoneQueue + [c];
      } else {
        EnterZone(c);
      }
    }

    /** A call arrives from outside. */
    method Arrival(c: Call)
      requires Valid(View()) && Enabled(View(), Arrive(c))
      modifies this
      ensures View() == Step(old(View()), Arrive(c)) && Valid(View())
    {
      ghost var was := View();
      WithZone(c);
      StepKeepsValid(was, Arrive(c));
    }

    method LeaveZone(zone: Zone)
      requires currentZone == Some(zone) && currentZoneDepth >= 1
      modifies this
      ensures View() == Release(old(View()))
    {
      assert currentZone == Some(zone);  // 'Should be in the correct zone'
      currentZoneDepth := currentZoneDepth - 1;
      assert currentZoneDepth >= 0;  // 'Unmatched number of leaveZone calls'
      if currentZoneDepth != 0 {
        return;
      }
      currentZone := None;
      if zoneQueue == [] {
        return;
      }
      var toEnter := ShiftRun();
      RunCallbacks(toEnter);
    }

    /** Takes the first call and those behind it that wait for the same zone. */
    method ShiftRun() returns (toEnter: seq<Call>)
      requires zoneQueue != []
      modifies this`zoneQueue
      ensures toEnter == old(zoneQueue)[..RunLength(old(zoneQueue))]
      ensures zoneQueue == old(zoneQueue)[RunLength(old(zoneQueue))..]
    {
      var next := zoneQueue[0];
      zoneQueue := zoneQueue[1..];
      toEnter := [next];
      while zoneQueue != [] && zoneQueue[0].zone == next.zone
        invariant |toEnter| > 0 && toEnter + zoneQueue == old(zoneQueue)
        invariant forall i :: 0 <= i < |toEnter| ==> toEnter[i].zone == next.zone
        decreases |zoneQueue|
      {
        toEnter := toEnter + [zoneQueue[0]];
        zoneQueue := zoneQueue[1..];
      }
      RunLengthIs(old(zoneQueue), |toEnter|);
    }

    /** The first one in takes the lock for the zone, so that none of the others waits again. */
    method RunCallbacks(toEnter: seq<Call>)
      requires currentZone.None? && currentZoneDepth == 0 && toEnter != []
      requires forall c | c in toEnter :: c.zone == toEnter[0].zone
      modifies this
      ensures View() == old(View()).(depth := |toEnter|, current := Some(toEnter[0].zone),
                                     running := old(View()).running + Members(toEnter))
    {
      for i := 0 to |toEnter|
        invariant currentZoneDepth == i && currentZone == (if i == 0 then None else Some(toEnter[0].zone))
        invariant world == old(world).(running := old(world).running + Members(toEnter[..i]))
        invariant zoneQueue == old(zoneQueue) && pending == old(pending) && caches == old(caches)
      {
        WithZone(toEnter[i]);
        assert toEnter[..i + 1] == toEnter[..i] + [toEnter[i]];
        assert Members(toEnter[..i + 1]) == Members(toEnter[..i]) + {toEnter[i]};
      }
      assert toEnter[..|toEnter|] == toEnter;
    }

    /** Up to the database call: swap out what is pending. */
    method CommitZoneChanges(c: Call)
      modifies this
      ensures View() == Submit(old(View()), c)
    {
      if pending == NOTHING {
        return;
      }
      world := world.(unwritten := world.unwritten + [Batch(c, pending)]);
      pending := NOTHING;
    }

    method RevertZoneChanges()
      modifies this
      ensures View() == old(View()).(pending := Reverted(old(pending)))
    {
      pending := pending.(kyberPreKeysToRemove := {}, preKeysToRemove := {}, senderKeys := map[], sessions := map[],
                          unprocessed := map[]);
    }

    /** The staging operations: the body of `storeSession`, `saveSenderKey`, `removePreKeys`,
        `removeKyberPreKeys`, `addUnprocessed`, and the marking of triples. Fails on a duplicate triple. */
    method StageWrite(c: Call, w: Write) returns (ok: bool)
      requires Valid(View()) && Enabled(View(), Stage(c, w))
      modifies this
      ensures View() == Step(old(View()), Stage(c, w)) && Valid(View())
      ensures ok == !Rejects(old(View()), w)
    {
      StepKeepsValid(View(), Stage(c, w));
      match w {
        case RemoveKyberPreKeys(ids) =>
          pending := pending.(kyberPreKeysToRemove := pending.kyberPreKeysToRemove + ids);
        case RemovePreKeys(ids) => pending := pending.(preKeysToRemove := pending.preKeysToRemove + ids);
        case SaveSenderKey(id, data) => pending := pending.(senderKeys := pending.senderKeys[id := data]);
        case StoreSession(id, data) => pending := pending.(sessions := pending.sessions[id := data]);
        case AddUnprocessed(items) => pending := pending.(unprocessed := pending.unprocessed + items);
        case MarkTriple(triple) =>
          var cacheKey := triple.CacheKey();
          if cacheKey in caches.triples || cacheKey in pending.kyberTriples {
            return false;
          }
          pending := pending.(kyberTriples := pending.kyberTriples[cacheKey := triple]);
      }
      ok := true;
      if !Supports(c.zone, w) {
        CommitZoneChanges(c);
      }
    }

    /** `maybeRemoveKyberPreKey`, by a call that is in its zone already: an unknown key is no matter, a key
        for one use is staged for removal, and a key of last resort stays and gets the triple. */
    method MaybeRemoveKyberPreKey(c: Call, triple: KyberTriple, lastResort: set<KeyId>) returns (ok: bool)
      requires Valid(View()) && c in View().running && View().Idle(c)
      modifies this
      ensures var use := Stage(c, if triple.id in lastResort then MarkTriple(triple) else RemoveKyberPreKeys({triple.id}));
              View() == (if triple.id in old(caches).kyberPreKeys then Step(old(View()), use) else old(View()))
      ensures !ok <==> triple.id in old(caches).kyberPreKeys && triple.id in lastResort && IsDuplicate(old(View()), triple)
      ensures Valid(View())
    {
      hide Valid, Step;
      if triple.id !in caches.kyberPreKeys {
        return true;
      }
      if triple.id in lastResort {
        ok := StageWrite(c, MarkTriple(triple));
      } else {
        ok := StageWrite(c, RemoveKyberPreKeys({triple.id}));
      }
    }

    /** The code behind `await body()`, up to its own next await. */
    method BodyFinished(c: Call, ok: bool)
      requires Valid(View()) && Enabled(View(), BodyDone(c, ok))
      modifies this
      ensures View() == Step(old(View()), BodyDone(c, ok)) && Valid(View())
    {
      StepKeepsValid(View(), BodyDone(c, ok));
      DepthIsPositive(View(), c);
      if currentZoneDepth == 1 {
        world := world.(running := world.running - {c}, closing := world.closing + {c});
        if ok {
          CommitZoneChanges(c);
        } else {
          RevertZoneChanges();
        }
      } else {
        world := world.(running := world.running - {c});
        LeaveZone(c.zone);
      }
    }

    /** The commit or revert of the outermost call is over. */
    method LeaveAfterClosing(c: Call)
      requires Valid(View()) && Enabled(View(), Leave(c))
      modifies this
      ensures View() == Step(old(View()), Leave(c)) && Valid(View())
    {
      StepKeepsValid(View(), Leave(c));
      DepthIsPositive(View(), c);
      world := world.(closing := world.closing - {c});
      LeaveZone(c.zone);
    }

    /** The database answers the oldest batch. */
    ghost method DatabaseAnswers(accepted: bool)
      requires Valid(View()) && Enabled(View(), DbDone(accepted))
      modifies this
      ensures View() == Step(old(View()), DbDone(accepted)) && Valid(View())
    {
      hide Valid, Answered;
      StepKeepsValid(View(), DbDone(accepted));
      AnswerLeavesStore(View(), accepted);
      var next := Answered(View(), accepted);
      world := World(next.running, next.closing, next.stuck, next.db, next.unwritten, next.written);
    }

    /** `data` is what the commit that awaited the database had swapped out. */
    method ApplyToCaches(data: Pending)
      requires Valid(View()) && Enabled(View(), Apply) && data == View().written[0].data
      modifies this
      ensures View() == Step(old(View()), Apply) && Valid(View())
    {
      StepKeepsValid(View(), Apply);
      world := world.(written := world.written[1..]);
      caches := AppliedInOrder(caches, data);
    }
  }

  function DropPrefix(keys: set<string>, prefix: string): set<string> {
    set k | k in keys && !StartsWith(k, prefix)
  }

  lemma OnePrefixMore(keys: set<string>, done: set<KeyId>, id: KeyId)
    ensures DropPrefix(WithoutPrefixes(keys, done), Prefix(id)) == WithoutPrefixes(keys, done + {id})
  {
    forall k
      ensures HasPrefixIn(k, done + {id}) <==> HasPrefixIn(k, done) || StartsWith(k, Prefix(id))
    {
      assert StartsWith(k, Prefix(id)) ==> id in done + {id};
    }
  }

  /** Removes the kyber keys one by one, and with each the triples that start with its prefix. */
  method RemoveKyberPreKeys(keys: map<KeyId, Record>, triples: set<string>, removed: set<KeyId>)
    returns (kyberPreKeys: map<KeyId, Record>, kyberTriples: set<string>)
    ensures kyberPreKeys == keys - removed
    ensures kyberTriples == WithoutPrefixes(triples, removed)
  {
    kyberPreKeys, kyberTriples := keys, triples;
    var ids := removed;
    while ids != {}
      invariant ids <= removed
      invariant kyberPreKeys == keys - (removed - ids)
      invariant kyberTriples == WithoutPrefixes(triples, removed - ids)
      decreases |ids|
    {
      var id :| id in ids;
      ghost var done := removed - ids;
      OnePrefixMore(triples, done, id);
      ids := ids - {id};
      assert removed - ids == done + {id};
      kyberPreKeys := kyberPreKeys - {id};
      assert kyberPreKeys == keys - (done + {id});
      kyberTriples := DropPrefix(kyberTriples, Prefix(id));
    }
    assert removed - ids == removed;
  }

  /** The cache updates of a commit, in the order of the code: triples in, then key by key out. */
  method AppliedInOrder(cache: Cache, data: Pending) returns (c: Cache)
    ensures c == CacheApply(cache, data)
  {
    var kyberPreKeys, kyberTriples := RemoveKyberPreKeys(
      cache.kyberPreKeys, cache.triples + data.kyberTriples.Keys, data.kyberPreKeysToRemove);
    c := Cache(kyberPreKeys, cache.preKeys - data.preKeysToRemove, cache.senderKeys + data.senderKeys,
               cache.sessions + data.sessions, kyberTriples);
  }

  lemma RunLengthIs(q: seq<Call>, n: nat)
    requires 0 < n <= |q|
    requires forall i :: 0 <= i < n ==> q[i].zone == q[0].zone
    requires n < |q| ==> q[n].zone != q[0].zone
    ensures RunLength(q) == n
  {
    var m := RunLength(q);
    var k := if m < n then m else n;
    assert k < |q| ==> (q[k].zone != q[0].zone <==> k == n || k == m);
  }

  /** The answer by itself changes nothing in the store object. */
  lemma AnswerLeavesStore(s: State, accepted: bool)
    requires s.unwritten != []
    ensures var t := Answered(s, accepted);
            && t.current == s.current && t.depth == s.depth && t.queue == s.queue
            && t.pending == s.pending && t.cache == s.cache
  {
    hide DbWrite;
  }

  lemma DepthIsPositive(s: State, c: Call)
    requires LockInv(s) && (c in s.running || c in s.closing)
    ensures s.depth >= 1 && s.current == Some(c.zone)
  {
    assert c in s.running ==> |s.running| > 0;
    assert c in s.closing ==> |s.closing| > 0;
  }
}
