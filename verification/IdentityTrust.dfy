/** Identity keys and their trust: `saveIdentity`, `setApproval`, `setVerified` and
    `updateIdentityAfterSync`, which run one after the other for each contact. */
module IdentityTrust {
  import opened Options

  type Id = nat
  type Key = seq<bv8>

  datatype Status = Default | Verified | Unverified

  /** A record read from the database may lack its key. */
  datatype Record = Record(
    publicKey: Option<Key>, firstUse: bool, timestamp: nat, verified: Status, nonblockingApproval: bool)
  {
    /** `validateIdentityKey` */
    predicate IsValid() { publicKey.Some? && timestamp > 0 }
  }

  type Records = map<Id, Record>

  /** `keys` is the cache and `db` the table. `previous` are the keys saved on conversations, `emitted`
      the `keychange` events. `verifiedKey` remembers for which key a contact was last verified. */
  datatype Store = Store(keys: Records, db: Records, previous: map<Id, Key>, emitted: seq<Id>, verifiedKey: map<Id, Key>)

  datatype Outcome = NewOrUnchanged | ReplacedExisting | Done | AddMessage(should: bool) | Failed

  const TIMESTAMP_THRESHOLD := 5 * 1000

  /** `constantTimeEqual`; None when it throws, on keys of different lengths. */
  function SameKey(a: Key, b: Key): Option<bool> {
    if |a| != |b| then None else Some(a == b)
  }

  function Find(s: Store, id: Id): Option<Record> {
    if id in s.keys then Some(s.keys[id]) else None
  }

  predicate HasKey(r: Option<Record>) { r.Some? && r.value.publicKey.Some? }

  predicate ApprovalRequired(r: Record, now: nat) {
    !r.firstUse && r.timestamp > now - TIMESTAMP_THRESHOLD && !r.nonblockingApproval
  }

  // ---------- the operations ----------

  /** `#_saveIdentityKey`, when the database takes the record. */
  function Saved(s: Store, id: Id, r: Record): Store {
    s.(keys := s.keys[id := r], db := s.db[id := r])
  }

  /** A match with the key saved on the conversation is no news; two lengths throw inside the `try`. */
  function CheckPreviousKey(s: Store, id: Id, key: Key): Store {
    if id !in s.previous || SameKey(s.previous[id], key).None? then s
    else s.(previous := s.previous - {id}, emitted := s.emitted + if s.previous[id] == key then [] else [id])
  }

  /** The approval is set on the cached record itself, whether or not the database takes it. */
  function Approved(s: Store, id: Id, r: Record, approval: bool, written: bool): Store {
    var updated := r.(nonblockingApproval := approval);
    s.(keys := s.keys[id := updated], db := if written then s.db[id := updated] else s.db)
  }

  function AfterChange(status: Status): Status { if status == Default then Default else Unverified }

  function AfterSave(s: Store, ours: set<Id>, id: Id, key: Key, approval: bool, noOverwrite: bool, now: nat, written: bool)
    : (Store, Outcome)
  {
    var r := Find(s, id);
    if |key| == 0 then (s, Failed)
    else if !HasKey(r) then
      if !written then (s, Failed)
      else (CheckPreviousKey(Saved(s, id, Record(Some(key), true, now, Default, approval)), id, key), NewOrUnchanged)
    else if noOverwrite then (s, NewOrUnchanged)
    else
      match SameKey(r.value.publicKey.value, key)
      case None => (s, Failed)
      case Some(false) =>
        if id in ours then (s, NewOrUnchanged)
        else if !written then (s, Failed)
        else (Saved(s, id, Record(Some(key), false, now, AfterChange(r.value.verified), approval)).(emitted := s.emitted + [id]),
              ReplacedExisting)
      case Some(true) =>
        if ApprovalRequired(r.value, now)
        then (Approved(s, id, r.value, approval, written), if written then NewOrUnchanged else Failed)
        else (s, NewOrUnchanged)
  }

  function AfterApproval(s: Store, id: Id, approval: bool, written: bool): (Store, Outcome) {
    if Find(s, id).None? then (s, Failed)
    else (Approved(s, id, s.keys[id], approval, written), if written then Done else Failed)
  }

  function AfterVerify(s: Store, id: Id, status: Status, firstUse: Option<bool>, approval: Option<bool>, written: bool)
    : (Store, Outcome)
  {
    if Find(s, id).None? || !s.keys[id].IsValid() || !written then (s, Failed)
    else
      var r := s.keys[id];
      var t := Saved(s, id, r.(verified := status,
                               firstUse := if firstUse.Some? then firstUse.value else r.firstUse,
                               nonblockingApproval := if approval.Some? then approval.value else r.nonblockingApproval));
      (if status == Verified then t.(verifiedKey := t.verifiedKey[id := r.publicKey.value]) else t, Done)
  }

  function AfterSync(s: Store, id: Id, status: Status, key: Key, now: nat, written: bool): (Store, Outcome) {
    var r := Find(s, id);
    if HasKey(r) && SameKey(key, r.value.publicKey.value).None? then (s, Failed)
    else
      var keyMatches := HasKey(r) && r.value.publicKey.value == key;
      var save := !keyMatches || r.value.verified != status;
      if save && (now == 0 || !written) then (s, Failed)
      else
        var t := if save then Saved(s, id, Record(Some(key), r.None?, now, status, true)) else s;
        var u := if r.None? then CheckPreviousKey(t, id, key)
                 else if !keyMatches then t.(emitted := t.emitted + [id]) else t;
        (if status == Verified then u.(verifiedKey := u.verifiedKey[id := key]) else u,
         AddMessage(
           if r.Some? && !keyMatches then false
           else if status == Verified && (r.None? || r.value.verified != Verified) then true
           else status != Verified && r.Some? && r.value.verified == Verified))
  }

  datatype Event =
    | Save(id: Id, key: Key, approval: bool, noOverwrite: bool, now: nat, written: bool)
    | Approve(id: Id, approval: bool, written: bool)
    | Verify(id: Id, status: Status, firstUse: Option<bool>, extraApproval: Option<bool>, written: bool)
    | Sync(id: Id, status: Status, key: Key, now: nat, written: bool)

  function Do(s: Store, ours: set<Id>, e: Event): (Store, Outcome) {
    match e
    case Save(id, key, approval, noOverwrite, now, written) => AfterSave(s, ours, id, key, approval, noOverwrite, now, written)
    case Approve(id, approval, written) => AfterApproval(s, id, approval, written)
    case Verify(id, status, firstUse, approval, written) => AfterVerify(s, id, status, firstUse, approval, written)
    case Sync(id, status, key, now, written) => AfterSync(s, id, status, key, now, written)
  }

  function DoAll(s: Store, ours: set<Id>, es: seq<Event>): Store
    decreases |es|
  {
    if es == [] then s else DoAll(Do(s, ours, es[0]).0, ours, es[1..])
  }

  // ---------- trust ----------

  /** `isTrustedForSending`; None when the comparison throws. */
  function TrustedForSending(s: Store, id: Id, key: Key, now: nat): Option<bool> {
    if id !in s.keys then
      if id !in s.previous then Some(true) else SameKey(s.previous[id], key)
    else
      var r := s.keys[id];
      if r.publicKey.None? then Some(true)
      else if SameKey(r.publicKey.value, key) != Some(true) then SameKey(r.publicKey.value, key)
      else Some(r.verified != Unverified && !ApprovalRequired(r, now))
  }

  // ---------- verified means this key ----------

  ghost predicate KeysVerified(records: Records, verifiedKey: map<Id, Key>) {
    forall id | id in records && records[id].verified == Verified ::
      id in verifiedKey && records[id].publicKey == Some(verifiedKey[id])
  }

  /** The cache and the table differ in approvals at most. */
  ghost predicate Agree(keys: Records, db: Records) {
    && keys.Keys == db.Keys
    && forall id | id in keys :: keys[id].(nonblockingApproval := true) == db[id].(nonblockingApproval := true)
  }

  ghost predicate Trusty(keys: Records, db: Records, verifiedKey: map<Id, Key>) {
    Agree(keys, db) && KeysVerified(keys, verifiedKey)
  }

  ghost predicate TrustInv(s: Store) {
    Trusty(s.keys, s.db, s.verifiedKey)
  }

  lemma PutBoth(keys: Records, db: Records, before: map<Id, Key>, after: map<Id, Key>, id: Id, r: Record)
    requires Trusty(keys, db, before) && forall x | x in before && x != id :: x in after && after[x] == before[x]
    requires r.verified == Verified ==> id in after && r.publicKey == Some(after[id])
    ensures Trusty(keys[id := r], db[id := r], after)
  {
  }

  lemma PutApproval(keys: Records, db: Records, verifiedKey: map<Id, Key>, id: Id, approval: bool)
    requires Trusty(keys, db, verifiedKey) && id in keys
    ensures var r := keys[id].(nonblockingApproval := approval);
            Trusty(keys[id := r], db, verifiedKey) && Trusty(keys[id := r], db[id := r], verifiedKey)
  {
  }

  lemma SaveKeepsTrust(s: Store, ours: set<Id>, e: Event)
    requires TrustInv(s) && e.Save?
    ensures TrustInv(Do(s, ours, e).0)
  {
    hide Trusty, ApprovalRequired, SameKey;
    var r := Find(s, e.id);
    PutBoth(s.keys, s.db, s.verifiedKey, s.verifiedKey, e.id, Record(Some(e.key), true, e.now, Default, e.approval));
    if r.Some? {
      PutBoth(s.keys, s.db, s.verifiedKey, s.verifiedKey, e.id,
              Record(Some(e.key), false, e.now, AfterChange(r.value.verified), e.approval));
      PutApproval(s.keys, s.db, s.verifiedKey, e.id, e.approval);
    }
  }

  lemma VerifyKeepsTrust(s: Store, ours: set<Id>, e: Event)
    requires TrustInv(s) && e.Verify?
    ensures TrustInv(Do(s, ours, e).0)
  {
  }

  /** The status is remembered also when there is nothing to save. */
  lemma SyncKeepsTrust(s: Store, ours: set<Id>, e: Event)
    requires TrustInv(s) && e.Sync?
    ensures TrustInv(Do(s, ours, e).0)
  {
    hide Agree;
    var after := if e.status == Verified then s.verifiedKey[e.id := e.key] else s.verifiedKey;
    PutBoth(s.keys, s.db, s.verifiedKey, after, e.id, Record(Some(e.key), Find(s, e.id).None?, e.now, e.status, true));
  }

  lemma DoKeepsTrust(s: Store, ours: set<Id>, e: Event)
    requires TrustInv(s)
    ensures TrustInv(Do(s, ours, e).0)
  {
    hide Trusty, AfterSave, AfterVerify, AfterSync;
    match e
    case Save(_, _, _, _, _, _) => SaveKeepsTrust(s, ours, e);
    case Approve(id, approval, written) => if id in s.keys { PutApproval(s.keys, s.db, s.verifiedKey, id, approval); }
    case Verify(_, _, _, _, _) => VerifyKeepsTrust(s, ours, e);
    case Sync(_, _, _, _, _) => SyncKeepsTrust(s, ours, e);
  }

  /** Over every run, a contact with status VERIFIED has the key for which it was last verified, in the
      cache as in the table. */
  lemma {:induction false} VerifiedMeansThisKey(s: Store, ours: set<Id>, es: seq<Event>)
    requires TrustInv(s)
    ensures var t := DoAll(s, ours, es);
            TrustInv(t) && KeysVerified(t.keys, t.verifiedKey) && KeysVerified(t.db, t.verifiedKey)
    decreases |es|
  {
    if es == [] {
      forall id | id in s.db && s.db[id].verified == Verified
        ensures id in s.verifiedKey && s.db[id].publicKey == Some(s.verifiedKey[id])
      {
        assert s.keys[id].(nonblockingApproval := true) == s.db[id].(nonblockingApproval := true);
      }
    } else {
      hide TrustInv, KeysVerified, Do;
      DoKeepsTrust(s, ours, es[0]);
      VerifiedMeansThisKey(Do(s, ours, es[0]).0, ours, es[1..]);
    }
  }

  // ---------- a changed key is not trusted ----------

  predicate Blocked(s: Store, id: Id) {
    id in s.keys && s.keys[id].publicKey.Some? && s.keys[id].verified == Unverified
  }

  /** Every run without `setVerified` and `updateIdentityAfterSync` for this contact. */
  lemma {:induction false} BlockedStays(s: Store, ours: set<Id>, id: Id, es: seq<Event>)
    requires Blocked(s, id) && forall e | e in es :: e.id == id ==> e.Save? || e.Approve?
    ensures Blocked(DoAll(s, ours, es), id)
    decreases |es|
  {
    if es != [] {
      assert es[0] in es;
      BlockedStep(s, ours, id, es[0]);
      BlockedStays(Do(s, ours, es[0]).0, ours, id, es[1..]);
    }
  }

  lemma BlockedStep(s: Store, ours: set<Id>, id: Id, e: Event)
    requires Blocked(s, id) && (e.id == id ==> e.Save? || e.Approve?)
    ensures Blocked(Do(s, ours, e).0, id)
  {
    if e.id != id { OthersUntouched(s, ours, id, e); }
  }

  /** An operation for one contact leaves the others as they are. */
  lemma OthersUntouched(s: Store, ours: set<Id>, id: Id, e: Event)
    requires e.id != id
    ensures Find(Do(s, ours, e).0, id) == Find(s, id)
    ensures id in Do(s, ours, e).0.previous <==> id in s.previous
    ensures id in s.previous ==> Do(s, ours, e).0.previous[id] == s.previous[id]
  {
    hide ApprovalRequired, SameKey;
  }

  /** After the key of a verified contact changed, nothing is trusted for sending, whatever key, however
      late, and however often the key changes again, until it is verified or synced. */
  lemma ChangedVerifiedNeverTrusted(s: Store, ours: set<Id>, id: Id, key: Key, approval: bool, noOverwrite: bool, now: nat,
                                    es: seq<Event>, anyKey: Key, later: nat)
    requires id in s.keys && s.keys[id].verified == Verified
    requires AfterSave(s, ours, id, key, approval, noOverwrite, now, true).1 == ReplacedExisting
    requires forall e | e in es :: e.id == id ==> e.Save? || e.Approve?
    ensures TrustedForSending(
              DoAll(AfterSave(s, ours, id, key, approval, noOverwrite, now, true).0, ours, es), id, anyKey, later) != Some(true)
  {
    BlockedStays(AfterSave(s, ours, id, key, approval, noOverwrite, now, true).0, ours, id, es);
  }

  /** A new key of any other contact, saved without approval at time `since`. */
  predicate Waiting(s: Store, id: Id, key: Key, since: nat) {
    && id in s.keys && s.keys[id].publicKey == Some(key) && s.keys[id].verified == Default && !s.keys[id].firstUse
    && s.keys[id].timestamp == since && !s.keys[id].nonblockingApproval
  }

  /** It is trusted exactly after five seconds, as long as nobody approves, verifies or changes it. */
  lemma {:induction false} UnapprovedWaitsFiveSeconds(s: Store, ours: set<Id>, id: Id, key: Key, since: nat, es: seq<Event>, now: nat)
    requires Waiting(s, id, key, since)
    requires forall e | e in es :: e.id == id ==> e.Save? && e.key == key && !e.approval
    ensures TrustedForSending(DoAll(s, ours, es), id, key, now) == Some(now >= since + TIMESTAMP_THRESHOLD)
    decreases |es|
  {
    if es != [] {
      assert es[0] in es;
      WaitingStep(s, ours, id, key, since, es[0]);
      UnapprovedWaitsFiveSeconds(Do(s, ours, es[0]).0, ours, id, key, since, es[1..], now);
    }
  }

  lemma WaitingStep(s: Store, ours: set<Id>, id: Id, key: Key, since: nat, e: Event)
    requires Waiting(s, id, key, since) && (e.id == id ==> e.Save? && e.key == key && !e.approval)
    ensures Waiting(Do(s, ours, e).0, id, key, since)
  {
    if e.id != id { OthersUntouched(s, ours, id, e); }
  }

  /** What a saved key is good for: a first one is trusted for sending at once, a replacement of an
      unverified contact when it is approved or five seconds old, of a verified one not at all; and the
      key that was replaced is trusted no more. */
  lemma TrustAfterSave(s: Store, ours: set<Id>, id: Id, key: Key, approval: bool, noOverwrite: bool, now: nat,
                       other: Key, later: nat)
    requires other != key && |other| == |key|
    ensures var (t, outcome) := AfterSave(s, ours, id, key, approval, noOverwrite, now, true);
            && (!HasKey(Find(s, id)) && outcome != Failed ==>
                  TrustedForSending(t, id, key, later) == Some(true) && TrustedForSending(t, id, other, later) == Some(false))
            && (outcome == ReplacedExisting ==>
                  && TrustedForSending(t, id, other, later) == Some(false)
                  && TrustedForSending(t, id, key, later)
                     == Some(s.keys[id].verified == Default && (approval || later >= now + TIMESTAMP_THRESHOLD)))
  {
  }

  /** Our own key is replaced by a sync only, never by `saveIdentity`. */
  lemma {:induction false} OwnKeyStays(s: Store, ours: set<Id>, id: Id, es: seq<Event>)
    requires id in ours && HasKey(Find(s, id)) && forall e | e in es :: e.id == id ==> !e.Sync?
    ensures HasKey(Find(DoAll(s, ours, es), id))
    ensures Find(DoAll(s, ours, es), id).value.publicKey == Find(s, id).value.publicKey
    decreases |es|
  {
    if es != [] {
      assert es[0] in es;
      var t := Do(s, ours, es[0]).0;
      if es[0].id != id { OthersUntouched(s, ours, id, es[0]); }
      assert HasKey(Find(t, id)) && Find(t, id).value.publicKey == Find(s, id).value.publicKey;
      OwnKeyStays(t, ours, id, es[1..]);
    }
  }

  // ---------- changes are announced ----------

  /** A key that is replaced by another one, by whatever operation, is announced in the same step; and
      nothing is announced but a key other than the one known before. */
  lemma KeyChangesAreAnnounced(s: Store, ours: set<Id>, e: Event, id: Id)
    requires HasKey(Find(s, id))
    ensures var t := Do(s, ours, e).0;
            && HasKey(Find(t, id))
            && (Find(t, id).value.publicKey != Find(s, id).value.publicKey ==> e.id == id && t.emitted == s.emitted + [id])
            && (t.emitted != s.emitted && e.id == id ==> Find(t, id).value.publicKey != Find(s, id).value.publicKey)
  {
    if e.id != id { OthersUntouched(s, ours, id, e); }
  }

  /** The notice about verification is asked for exactly when the key is not a changed one and the
      contact becomes verified or stops being verified. */
  lemma NoticeExactly(s: Store, id: Id, status: Status, key: Key, now: nat, written: bool)
    requires AfterSync(s, id, status, key, now, written).1.AddMessage?
    ensures var r, u := Find(s, id), AfterSync(s, id, status, key, now, written);
            && HasKey(Find(u.0, id)) && Find(u.0, id).value.publicKey.value == key && Find(u.0, id).value.verified == status
            && (u.1.should <==> (r.Some? ==> r.value.publicKey == Some(key))
                                && ((r.Some? && r.value.verified == Verified) != (status == Verified)))
  {
  }

  // ---------- the store object ----------

  class IdentityStore {
    const ours: set<Id>
    var identityKeys: Records
    var previousIdentityKeys: map<Id, Key>
    ghost var db: Records
    ghost var emitted: seq<Id>
    ghost var verifiedKey: map<Id, Key>

    ghost function View(): Store
      reads this
    {
      Store(identityKeys, db, previousIdentityKeys, emitted, verifiedKey)
    }

    constructor (ours: set<Id>, records: Records, previous: map<Id, Key>, ghost verified: map<Id, Key>)
      requires KeysVerified(records, verified)
      ensures TrustInv(View()) && identityKeys == records && this.ours == ours
    {
      this.ours, identityKeys, previousIdentityKeys := ours, records, previous;
      db, emitted, verifiedKey := records, [], verified;
    }

    /** Database first, then the cache. */
    method SaveIdentityKey(id: Id, r: Record, written: bool) returns (ok: bool)
      modifies this`identityKeys, this`db
      ensures ok == written && View() == if written then Saved(old(View()), id, r) else old(View())
    {
      if !written {
        return false;
      }
      db := db[id := r];
      identityKeys := identityKeys[id := r];
      return true;
    }

    method CheckPrevious(id: Id, key: Key)
      modifies this`previousIdentityKeys, this`emitted
      ensures View() == CheckPreviousKey(old(View()), id, key)
    {
      if id in previousIdentityKeys {
        var equal := SameKey(previousIdentityKeys[id], key);
        if equal.None? {
          return;
        }
        if !equal.value {
          emitted := emitted + [id];
        }
        previousIdentityKeys := previousIdentityKeys - {id};
      }
    }

    method SaveIdentity(id: Id, key: Key, approval: bool, noOverwrite: bool, now: nat, written: bool) returns (r: Outcome)
      modifies this
      ensures (View(), r) == AfterSave(old(View()), ours, id, key, approval, noOverwrite, now, written)
      ensures old(TrustInv(View())) ==> TrustInv(View())
    {
      if TrustInv(View()) { DoKeepsTrust(View(), ours, Save(id, key, approval, noOverwrite, now, written)); }
      if |key| == 0 {
        return Failed;
      }
      if id !in identityKeys || identityKeys[id].publicKey.None? {
        var ok := SaveIdentityKey(id, Record(Some(key), true, now, Default, approval), written);
        if !ok {
          return Failed;
        }
        CheckPrevious(id, key);
        return NewOrUnchanged;
      }
      if noOverwrite {
        return NewOrUnchanged;
      }
      var record := identityKeys[id];
      var same := SameKey(record.publicKey.value, key);
      if same.None? {
        return Failed;
      }
      if !same.value {
        if id in ours {
          return NewOrUnchanged;
        }
        var status := if record.verified == Verified || record.verified == Unverified then Unverified else Default;
        var ok := SaveIdentityKey(id, Record(Some(key), false, now, status, approval), written);
        if !ok {
          return Failed;
        }
        emitted := emitted + [id];
        return ReplacedExisting;
      }
      if ApprovalRequired(record, now) {
        var ok := ChangeApproval(id, approval, written);
        return if ok then NewOrUnchanged else Failed;
      }
      return NewOrUnchanged;
    }

    /** The cached record is changed before the database is asked. */
    method ChangeApproval(id: Id, approval: bool, written: bool) returns (ok: bool)
      requires id in identityKeys
      modifies this`identityKeys, this`db
      ensures ok == written && View() == Approved(old(View()), id, old(identityKeys)[id], approval, written)
    {
      var record := identityKeys[id].(nonblockingApproval := approval);
      identityKeys := identityKeys[id := record];
      ok := SaveIdentityKey(id, record, written);
    }

    method SetApproval(id: Id, approval: bool, written: bool) returns (r: Outcome)
      modifies this
      ensures (View(), r) == AfterApproval(old(View()), id, approval, written)
      ensures old(TrustInv(View())) ==> TrustInv(View())
    {
      if TrustInv(View()) { DoKeepsTrust(View(), ours, Approve(id, approval, written)); }
      if id !in identityKeys {
        return Failed;
      }
      var ok := ChangeApproval(id, approval, written);
      return if ok then Done else Failed;
    }

    method SetVerified(id: Id, status: Status, firstUse: Option<bool>, approval: Option<bool>, written: bool) returns (r: Outcome)
      modifies this
      ensures (View(), r) == AfterVerify(old(View()), id, status, firstUse, approval, written)
      ensures old(TrustInv(View())) ==> TrustInv(View())
    {
      if TrustInv(View()) { DoKeepsTrust(View(), ours, Verify(id, status, firstUse, approval, written)); }
      if id !in identityKeys || !identityKeys[id].IsValid() {
        return Failed;
      }
      var record := identityKeys[id];
      if firstUse.Some? { record := record.(firstUse := firstUse.value); }
      if approval.Some? { record := record.(nonblockingApproval := approval.value); }
      record := record.(verified := status);
      var ok := SaveIdentityKey(id, record, written);
      if !ok {
        return Failed;
      }
      if status == Verified {
        verifiedKey := verifiedKey[id := record.publicKey.value];
      }
      return Done;
    }

    method UpdateIdentityAfterSync(id: Id, status: Status, key: Key, now: nat, written: bool) returns (r: Outcome)
      modifies this
      ensures (View(), r) == AfterSync(old(View()), id, status, key, now, written)
      ensures old(TrustInv(View())) ==> TrustInv(View())
    {
      hide TrustInv;
      if TrustInv(View()) { DoKeepsTrust(View(), ours, Sync(id, status, key, now, written)); }
      var hadEntry := id in identityKeys;
      var keyMatches := false;
      if hadEntry && identityKeys[id].publicKey.Some? {
        var same := SameKey(key, identityKeys[id].publicKey.value);
        if same.None? {
          return Failed;
        }
        keyMatches := same.value;
      }
      var wasVerified := hadEntry && identityKeys[id].verified == Verified;
      var statusMatches := keyMatches && status == identityKeys[id].verified;
      if !keyMatches || !statusMatches {
        var updates := Record(Some(key), !hadEntry, now, status, true);
        if !updates.IsValid() {
          return Failed;
        }
        var ok := SaveIdentityKey(id, updates, written);
        if !ok {
          return Failed;
        }
      }
      if !hadEntry {
        CheckPrevious(id, key);
      } else if !keyMatches {
        emitted := emitted + [id];
      }
      if status == Verified {
        verifiedKey := verifiedKey[id := key];
      }
      if hadEntry && !keyMatches {
        return AddMessage(false);
      }
      if status == Verified && !wasVerified {
        return AddMessage(true);
      }
      return AddMessage(status != Verified && wasVerified);
    }
  }
}
