/** Sessions with devices, as live records on the heap. A cached entry holds the stored form of a session
    and, once it was used, its live record; archiving changes the live record in place. */
module Sessions {
  import opened Options

  type ServiceId = nat

  datatype Address = Address(ourServiceId: ServiceId, serviceId: ServiceId, deviceId: nat)

  /** What a record serializes to: `archived` counts the states that were archived. */
  datatype SessionState = SessionState(open: bool, registrationId: nat, archived: nat)

  datatype Stored = Stored(address: Address, record: SessionState)

  /** Hydrated exactly when there is a live record. */
  datatype Entry = Entry(fromDB: Stored, item: Option<SessionRecord>) {
    function Live(): set<SessionRecord> { if item.Some? then {item.value} else {} }
  }

  datatype Device = Device(serviceId: ServiceId, id: nat, registrationId: nat)

  /** The session with its current state archived; nothing happens without one. */
  function Archived(s: SessionState): (t: SessionState)
    ensures !t.open
  {
    if s.open then s.(open := false, archived := s.archived + 1) else s
  }

  type Entries = map<Address, Entry>

  class SessionRecord {
    var state: SessionState

    constructor (state: SessionState)
      ensures this.state == state
    {
      this.state := state;
    }

    method ArchiveCurrentState()
      requires state.open
      modifies this
      ensures state == SessionState(false, old(state).registrationId, old(state).archived + 1)
    {
      state := state.(open := false, archived := state.archived + 1);
    }
  }

  /** The live record counts, the stored form only without one. */
  function StateOf(e: Entry): SessionState
    reads e.Live()
  {
    if e.item.Some? then e.item.value.state else e.fromDB.record
  }

  function LiveAt(entries: Entries, a: Address): set<SessionRecord> {
    if a in entries then entries[a].Live() else {}
  }

  /** The live records of one address; the cached and the pending entry may share one. */
  function LiveIn(sessions: Entries, pending: Entries, a: Address): set<SessionRecord> {
    LiveAt(sessions, a) + LiveAt(pending, a)
  }

  /** Entries are filed under their address, pending ones are hydrated, and no two addresses share a
      live record. */
  ghost predicate WellKept(sessions: Entries, pending: Entries) {
    && (forall a | a in sessions :: sessions[a].fromDB.address == a)
    && (forall a | a in pending :: pending[a].fromDB.address == a && pending[a].item.Some?)
    && (forall a, b | a != b :: LiveIn(sessions, pending, a) !! LiveIn(sessions, pending, b))
  }

  lemma PendingAdded(sessions: Entries, pending: Entries, a: Address, e: Entry)
    requires WellKept(sessions, pending) && e.fromDB.address == a && e.item.Some?
    requires forall b | b != a :: e.item.value !in LiveIn(sessions, pending, b)
    ensures WellKept(sessions, pending[a := e])
    ensures forall b | b != a :: LiveIn(sessions, pending[a := e], b) == LiveIn(sessions, pending, b)
    ensures LiveIn(sessions, pending[a := e], a) <= LiveIn(sessions, pending, a) + {e.item.value}
  {
    assert forall b | b != a :: LiveIn(sessions, pending[a := e], b) == LiveIn(sessions, pending, b);
    assert LiveIn(sessions, pending[a := e], a) <= LiveIn(sessions, pending, a) + {e.item.value};
    var after := pending[a := e];
    forall x, y | x != y
      ensures LiveIn(sessions, after, x) !! LiveIn(sessions, after, y)
    {
      assert LiveIn(sessions, pending, x) !! LiveIn(sessions, pending, y);
    }
  }

  lemma PendingMoved(sessions: Entries, pending: Entries)
    requires WellKept(sessions, pending)
    ensures WellKept(sessions + pending, map[]) && WellKept(sessions, map[])
    ensures forall b :: LiveIn(sessions + pending, map[], b) <= LiveIn(sessions, pending, b)
    ensures forall b :: LiveIn(sessions, map[], b) <= LiveIn(sessions, pending, b)
  {
    assert forall b :: LiveIn(sessions + pending, map[], b) <= LiveIn(sessions, pending, b);
    assert forall b :: LiveIn(sessions, map[], b) <= LiveIn(sessions, pending, b);
  }

  lemma CacheHydrated(sessions: Entries, pending: Entries, a: Address, e: Entry)
    requires WellKept(sessions, pending) && e.fromDB.address == a && e.item.Some?
    requires forall b | b != a :: e.item.value !in LiveIn(sessions, pending, b)
    ensures WellKept(sessions[a := e], pending)
  {
    assert forall b | b != a :: LiveIn(sessions[a := e], pending, b) == LiveIn(sessions, pending, b);
    assert LiveIn(sessions[a := e], pending, a) <= LiveIn(sessions, pending, a) + {e.item.value};
    var after := sessions[a := e];
    forall x, y | x != y
      ensures LiveIn(after, pending, x) !! LiveIn(after, pending, y)
    {
      assert LiveIn(sessions, pending, x) !! LiveIn(sessions, pending, y);
    }
  }

  lemma LiveRecordsApart(sessions: Entries, pending: Entries, a: Address, b: Address)
    requires WellKept(sessions, pending) && a in sessions + pending && b in sessions + pending && a != b
    ensures (sessions + pending)[a].Live() !! (sessions + pending)[b].Live()
  {
    assert LiveIn(sessions, pending, a) !! LiveIn(sessions, pending, b);
  }

  class SessionStore {
    var sessions: Entries
    var pendingSessions: Entries
    ghost var db: map<Address, Stored>

    ghost function LiveOf(a: Address): set<SessionRecord>
      reads this
    {
      LiveIn(sessions, pendingSessions, a)
    }

    ghost function Records(): set<SessionRecord>
      reads this
    {
      set a, r | a in sessions.Keys + pendingSessions.Keys && r in LiveOf(a) :: r
    }

    ghost predicate Valid()
      reads this
    {
      WellKept(sessions, pendingSessions)
    }

    /** `#_getAllSessions`: pending entries hide cached ones. */
    function AllSessions(): (all: Entries)
      reads this
      ensures all.Keys == sessions.Keys + pendingSessions.Keys
    {
      sessions + pendingSessions
    }

    lemma InRecords(a: Address)
      ensures LiveOf(a) <= Records() && LiveAt(AllSessions(), a) <= LiveOf(a)
    {
    }

    constructor (ghost stored: map<Address, Stored>, cached: Entries)
      requires forall a | a in cached :: cached[a].fromDB.address == a && cached[a].item.None?
      ensures Valid() && sessions == cached && pendingSessions == map[]
    {
      sessions, pendingSessions, db := cached, map[], stored;
    }

    // ---------- devices ----------

    /** One device for each wanted session, in the order of `from`, and no other; the requested service
        ids without a device are given separately. */
    method GetOpenDevices(ourServiceId: ServiceId, serviceIds: seq<ServiceId>)
      returns (devices: seq<Device>, emptyServiceIds: set<ServiceId>, ghost from: seq<Address>)
      requires Valid()
      ensures |from| == |devices| && (forall i, j :: 0 <= i < j < |from| ==> from[i] != from[j])
      ensures forall a | a in AllSessions() :: a in from <==>
                a.ourServiceId == ourServiceId && a.serviceId in serviceIds && StateOf(AllSessions()[a]).open
      ensures forall i | 0 <= i < |from| :: from[i] in AllSessions()
                && devices[i] == Device(from[i].serviceId, from[i].deviceId, StateOf(AllSessions()[from[i]]).registrationId)
      ensures forall s :: s in serviceIds <==> s in emptyServiceIds || exists d :: d in devices && d.serviceId == s
      ensures forall d | d in devices :: d.serviceId !in emptyServiceIds
    {
      hide WellKept, LiveIn;
      devices, from := [], [];
      emptyServiceIds := set s | s in serviceIds;
      if |serviceIds| == 0 {
        return;
      }
      var all := AllSessions();
      var todo := set a | a in all && a.ourServiceId == ourServiceId && a.serviceId in serviceIds;
      ghost var entries := todo;
      while todo != {}
        invariant todo <= entries && |from| == |devices|
        invariant forall a :: a in from <==> a in entries - todo && StateOf(all[a]).open
        invariant forall i, j :: 0 <= i < j < |from| ==> from[i] != from[j]
        invariant forall i | 0 <= i < |from| :: from[i] in all
                    && devices[i] == Device(from[i].serviceId, from[i].deviceId, StateOf(all[from[i]]).registrationId)
        invariant forall s :: s in emptyServiceIds <==> s in serviceIds && forall a | a in from :: a.serviceId != s
        decreases |todo|
      {
        var a :| a in todo;
        todo := todo - {a};
        var state := StateOf(all[a]);
        if state.open {
          emptyServiceIds := emptyServiceIds - {a.serviceId};
          devices := devices + [Device(a.serviceId, a.deviceId, state.registrationId)];
          from := from + [a];
        }
      }
      forall s | s in serviceIds && s !in emptyServiceIds
        ensures exists d :: d in devices && d.serviceId == s
      {
        var a :| a in from && a.serviceId == s;
        var i :| 0 <= i < |from| && from[i] == a;
        assert devices[i].serviceId == s && devices[i] in devices;
      }
      forall d | d in devices
        ensures d.serviceId in serviceIds && d.serviceId !in emptyServiceIds
      {
        var i :| 0 <= i < |devices| && devices[i] == d;
        assert from[i] in from;
      }
    }

    // ---------- loading and storing ----------

    /** The live record of a session, made from the stored form the first time. */
    method LoadSession(a: Address) returns (r: Option<SessionRecord>)
      requires Valid()
      modifies this`sessions
      ensures Valid() && AllSessions().Keys == old(AllSessions()).Keys
      ensures r.Some? <==> a in AllSessions()
      ensures r.Some? ==> AllSessions()[a] == old(AllSessions()[a]).(item := r) && r.value.state == old(StateOf(AllSessions()[a]))
      ensures a in old(AllSessions()) && old(AllSessions()[a]).item.Some? ==> r == old(AllSessions()[a]).item
      ensures forall b | b != a && b in AllSessions() :: AllSessions()[b] == old(AllSessions()[b])
    {
      if a in pendingSessions {
        return pendingSessions[a].item;
      }
      if a !in sessions {
        return None;
      }
      var entry := sessions[a];
      if entry.item.Some? {
        return entry.item;
      }
      var item := new SessionRecord(entry.fromDB.record);
      CacheHydrated(sessions, pendingSessions, a, entry.(item := Some(item)));
      sessions := sessions[a := entry.(item := Some(item))];
      return Some(item);
    }

    /** `written` is what the database does when the zone does not keep sessions pending. A refused
        commit loses what was pending. */
    method StoreSession(a: Address, record: SessionRecord, supportsPending: bool, written: bool) returns (ok: bool)
      requires Valid() && forall b | b != a :: record !in LiveOf(b)
      modifies this
      ensures Valid() && ok == (supportsPending || written)
      ensures ok ==> AllSessions() == old(AllSessions())[a := Entry(Stored(a, record.state), Some(record))]
      ensures supportsPending || !written ==> sessions == old(sessions) && db == old(db)
      ensures !supportsPending ==> pendingSessions == map[]
      ensures !supportsPending && written ==>
                forall b :: if b == a then b in db && db[b] == Stored(a, record.state)
                            else if b in old(pendingSessions) then b in db && db[b] == old(pendingSessions)[b].fromDB
                            else if b in old(db) then b in db && db[b] == old(db)[b] else b !in db
      ensures forall b | b != a :: LiveOf(b) <= old(LiveOf(b))
      ensures LiveOf(a) <= old(LiveOf(a)) + {record}
    {
      hide WellKept, LiveIn;
      var entry := Entry(Stored(a, record.state), Some(record));
      forall b | b != a ensures record !in LiveIn(sessions, pendingSessions, b) { assert record !in LiveOf(b); }
      PendingAdded(sessions, pendingSessions, a, entry);
      PendingMoved(sessions, pendingSessions[a := entry]);
      assert sessions + pendingSessions[a := entry] == (sessions + pendingSessions)[a := entry];
      pendingSessions := pendingSessions[a := entry];
      if supportsPending {
        return true;
      }
      var committed := pendingSessions;
      pendingSessions := map[];
      if !written {
        return false;
      }
      db := db + map b | b in committed :: committed[b].fromDB;
      sessions := sessions + committed;
      assert AllSessions() == sessions;
      return true;
    }

    // ---------- archiving ----------

    lemma SessionsApart()
      requires Valid()
      ensures forall a, b | a in AllSessions() && b in AllSessions() && a != b ::
                AllSessions()[a].Live() !! AllSessions()[b].Live()
      ensures forall a | a in AllSessions() :: AllSessions()[a].Live() <= Records() && AllSessions()[a].fromDB.address == a
    {
      forall a, b | a in AllSessions() && b in AllSessions() && a != b
        ensures AllSessions()[a].Live() !! AllSessions()[b].Live()
      {
        LiveRecordsApart(sessions, pendingSessions, a, b);
      }
      forall a | a in AllSessions() ensures AllSessions()[a].Live() <= Records() { InRecords(a); }
    }

    lemma OnlyOwn(a: Address)
      requires Valid() && a in AllSessions()
      ensures forall b, r | b != a && r in AllSessions()[a].Live() :: r !in LiveOf(b)
    {
      forall b, r | b != a && r in AllSessions()[a].Live() ensures r !in LiveOf(b) {
        assert r in LiveOf(a) && LiveOf(a) !! LiveOf(b);
      }
    }

    /** The live record of an entry, a new one if need be; no other address has it. */
    method Hydrated(entry: Entry) returns (item: SessionRecord)
      requires Valid() && entry.fromDB.address in AllSessions() && AllSessions()[entry.fromDB.address] == entry
      ensures item.state == StateOf(entry) && (if entry.item.Some? then item == entry.item.value else fresh(item))
      ensures entry.item.Some? ==> item in LiveOf(entry.fromDB.address)
      ensures forall b | b != entry.fromDB.address :: item !in LiveOf(b)
    {
      hide WellKept, Records;
      OnlyOwn(entry.fromDB.address);
      if entry.item.Some? {
        item := entry.item.value;
        assert item in LiveOf(entry.fromDB.address);
      } else {
        item := new SessionRecord(entry.fromDB.record);
      }
    }

    /** `#_archiveSession` for an entry read before. */
    method ArchiveEntry(entry: Entry, supportsPending: bool, written: bool) returns (ok: bool)
      requires Valid()
      requires entry.fromDB.address in AllSessions() && AllSessions()[entry.fromDB.address] == entry
      modifies this, entry.Live()
      ensures Valid() && (supportsPending || written ==> ok)
      ensures ok ==> AllSessions().Keys == old(AllSessions()).Keys
      ensures ok ==> StateOf(AllSessions()[entry.fromDB.address]) == Archived(old(StateOf(entry)))
      ensures entry.item.Some? ==> entry.item.value.state == Archived(old(StateOf(entry)))
      ensures if old(StateOf(entry)).open
              then ok ==> AllSessions()[entry.fromDB.address].fromDB.record == Archived(old(StateOf(entry)))
              else ok && sessions == old(sessions) && pendingSessions == old(pendingSessions) && db == old(db)
      ensures ok ==> forall b | b in AllSessions() && b != entry.fromDB.address ::
                AllSessions()[b] == old(AllSessions()[b]) && StateOf(AllSessions()[b]) == old(StateOf(AllSessions()[b]))
      ensures forall b | b != entry.fromDB.address :: LiveOf(b) <= old(LiveOf(b))
      ensures forall r | r in LiveOf(entry.fromDB.address) - old(LiveOf(entry.fromDB.address)) :: fresh(r)
      ensures supportsPending ==> sessions == old(sessions) && db == old(db)
    {
      hide WellKept, Records, LiveIn, LiveOf;
      var a := entry.fromDB.address;
      SessionsApart();
      var item := Hydrated(entry);
      if !item.state.open {
        return true;
      }
      item.ArchiveCurrentState();
      ok := StoreSession(a, item, supportsPending, written);
    }

    predicate IsTarget(a: Address, serviceId: ServiceId, except: Option<nat>) {
      a.serviceId == serviceId && except != Some(a.deviceId)
    }

    /** `archiveSiblingSessions` with a device to spare, `archiveAllSessions` without: none of the targeted
        sessions stays open, and all the others are as before. The database takes what it is given. */
    method ArchiveSessions(serviceId: ServiceId, except: Option<nat>, supportsPending: bool)
      requires Valid()
      modifies this, Records()
      ensures Valid() && AllSessions().Keys == old(AllSessions()).Keys
      ensures forall a | a in AllSessions() && a.serviceId == serviceId && except != Some(a.deviceId) ::
                !StateOf(AllSessions()[a]).open && StateOf(AllSessions()[a]) == Archived(old(StateOf(AllSessions()[a])))
      ensures forall a | a in AllSessions() && !(a.serviceId == serviceId && except != Some(a.deviceId)) ::
                AllSessions()[a] == old(AllSessions()[a]) && StateOf(AllSessions()[a]) == old(StateOf(AllSessions()[a]))
      ensures supportsPending ==> sessions == old(sessions) && db == old(db)
    {
      hide Valid, AllSessions, Records, LiveOf, Archived, StateOf, Entry.Live;
      var all := AllSessions();
      ghost var states, records := map a | a in all :: StateOf(all[a]), Records();
      SessionsApart();
      var todo := set a | a in all && IsTarget(a, serviceId, except);
      ghost var done: set<Address> := {};
      while todo != {}
        invariant Valid() && Progress(all, states, done)
        invariant forall a | a in todo :: a in all && a !in done && all[a].Live() <= records
        invariant forall a | a in all :: IsTarget(a, serviceId, except) <==> a in todo || a in done
        invariant supportsPending ==> sessions == old(sessions) && db == old(db)
        decreases |todo|
      {
        var a :| a in todo;
        todo := todo - {a};
        ArchiveNext(all, states, done, a, supportsPending);
        done := done + {a};
      }
    }

    /** Between two archivings: the targets `done` are archived, everything else is as it was. */
    ghost predicate Progress(all: Entries, states: map<Address, SessionState>, done: set<Address>)
      reads this, Records()
    {
      && AllSessions().Keys == all.Keys == states.Keys
      && forall a | a in AllSessions() ::
           InRecords(a);
           if a in done then StateOf(AllSessions()[a]) == Archived(states[a])
           else AllSessions()[a] == all[a] && StateOf(AllSessions()[a]) == states[a]
    }

    method ArchiveNext(all: Entries, ghost states: map<Address, SessionState>, ghost done: set<Address>, a: Address,
                       supportsPending: bool)
      requires Valid() && Progress(all, states, done) && a in all && a !in done
      modifies this, all[a].Live()
      ensures Valid() && Progress(all, states, done + {a})
      ensures supportsPending ==> sessions == old(sessions) && db == old(db)
    {
      hide Records, LiveOf, Archived, StateOf, Entry.Live, AllSessions;
      SessionsApart();
      var ok := ArchiveEntry(all[a], supportsPending, true);
    }

    method RevertPending()
      requires Valid()
      modifies this`pendingSessions
      ensures Valid() && pendingSessions == map[] && sessions == old(sessions)
    {
      PendingMoved(sessions, pendingSessions);
      pendingSessions := map[];
    }

    /** What a revert does not undo: the stored form is as before, but a live record that was archived
        stays archived. Only a session that had no live record yet is open again. */
    method ArchiveThenRevert(a: Address)
      requires Valid() && pendingSessions == map[] && a in sessions && StateOf(sessions[a]).open
      modifies this, sessions[a].Live()
      ensures Valid() && sessions == old(sessions) && AllSessions() == sessions && db == old(db)
      ensures StateOf(sessions[a]).open <==> sessions[a].item.None?
    {
      assert AllSessions() == sessions;
      var ok := ArchiveEntry(sessions[a], true, true);
      RevertPending();
    }
  }
}
