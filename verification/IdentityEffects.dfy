/** What each identity operation leaves behind, field by field, and what that means for trust until the
    next operation for the same contact. */
module IdentityEffects {
  import opened Options
  import opened IdentityTrust

  /** The record of `id` is now `r`, in cache and table; all other records are as before. */
  predicate Holds(s: Store, t: Store, id: Id, r: Record) {
    t.keys == s.keys[id := r] && t.db == s.db[id := r]
  }

  predicate Quiet(s: Store, t: Store) { t.emitted == s.emitted && t.previous == s.previous }

  /** Events for other contacts only. */
  predicate Elsewhere(es: seq<Event>, id: Id) { forall e | e in es :: e.id != id }

  lemma {:induction false} ElsewhereKeepsTrust(s: Store, ours: set<Id>, es: seq<Event>, id: Id, key: Key, now: nat)
    requires Elsewhere(es, id)
    ensures TrustedForSending(DoAll(s, ours, es), id, key, now) == TrustedForSending(s, id, key, now)
    decreases |es|
  {
    hide Do, SameKey, ApprovalRequired;
    if es != [] {
      assert es[0] in es;
      OthersUntouched(s, ours, id, es[0]);
      ElsewhereKeepsTrust(Do(s, ours, es[0]).0, ours, es[1..], id, key, now);
    }
  }

  // ---------- setVerified ----------

  /** It succeeds exactly for a valid record that the database takes. Then key and timestamp are the same,
      the status is the given one, and each extra is the given one or as before. */
  lemma VerifyLeaves(s: Store, id: Id, status: Status, firstUse: Option<bool>, approval: Option<bool>, written: bool)
    ensures var (t, outcome) := AfterVerify(s, id, status, firstUse, approval, written);
            && (outcome == Done <==>
                  id in s.keys && s.keys[id].publicKey.Some? && s.keys[id].timestamp > 0 && written)
            && (if outcome == Done then
                  var r := s.keys[id];
                  && Holds(s, t, id, Record(r.publicKey, if firstUse.Some? then firstUse.value else r.firstUse, r.timestamp,
                                            status, if approval.Some? then approval.value else r.nonblockingApproval))
                  && Quiet(s, t)
                else outcome == Failed && t == s)
  {
  }

  /** From there on, as long as only other contacts change: its key is trusted for sending according to the
      status, also when it was blocked before, and no other key is. */
  lemma VerifyDecidesTrust(s: Store, ours: set<Id>, id: Id, status: Status, firstUse: Option<bool>, approval: Option<bool>,
                           es: seq<Event>, key: Key, now: nat)
    requires AfterVerify(s, id, status, firstUse, approval, true).1 == Done && Elsewhere(es, id)
    ensures var t := DoAll(AfterVerify(s, id, status, firstUse, approval, true).0, ours, es);
            var r := s.keys[id];
            if r.publicKey == Some(key) then
              TrustedForSending(t, id, key, now) == Some(
                && status != Unverified
                && ((if firstUse.Some? then firstUse.value else r.firstUse) || now >= r.timestamp + 5000
                    || (if approval.Some? then approval.value else r.nonblockingApproval)))
            else TrustedForSending(t, id, key, now) != Some(true)
  {
    ElsewhereKeepsTrust(AfterVerify(s, id, status, firstUse, approval, true).0, ours, es, id, key, now);
  }

  // ---------- setApproval ----------

  /** Nothing but the approval changes; in the cache also when the database refuses. */
  lemma ApprovalLeaves(s: Store, id: Id, approval: bool, written: bool)
    ensures var (t, outcome) := AfterApproval(s, id, approval, written);
            && (outcome == Done <==> id in s.keys && written)
            && Quiet(s, t)
            && (if id in s.keys then
                  var r := s.keys[id];
                  var changed := Record(r.publicKey, r.firstUse, r.timestamp, r.verified, approval);
                  t.keys == s.keys[id := changed] && t.db == if written then s.db[id := changed] else s.db
                else outcome == Failed && t == s)
  {
  }

  /** An approved key is trusted at once exactly when its status is not UNVERIFIED; without the approval a
      replaced key that is not blocked is trusted exactly from five seconds on. */
  lemma ApprovalDecidesTrust(s: Store, ours: set<Id>, id: Id, approval: bool, written: bool, es: seq<Event>, key: Key, now: nat)
    requires id in s.keys && s.keys[id].publicKey == Some(key) && Elsewhere(es, id)
    ensures var t := DoAll(AfterApproval(s, id, approval, written).0, ours, es);
            var r := s.keys[id];
            && (approval ==> TrustedForSending(t, id, key, now) == Some(r.verified != Unverified))
            && (!approval && !r.firstUse && r.verified != Unverified ==>
                  TrustedForSending(t, id, key, now) == Some(now >= r.timestamp + 5000))
  {
    ElsewhereKeepsTrust(AfterApproval(s, id, approval, written).0, ours, es, id, key, now);
  }

  // ---------- saveIdentity ----------

  /** A first key, or one where the key was removed. */
  lemma FirstSaveLeaves(s: Store, ours: set<Id>, id: Id, key: Key, approval: bool, noOverwrite: bool, now: nat, written: bool)
    requires |key| > 0 && (id !in s.keys || s.keys[id].publicKey.None?)
    ensures var (t, outcome) := AfterSave(s, ours, id, key, approval, noOverwrite, now, written);
            if written then
              && outcome == NewOrUnchanged && Holds(s, t, id, Record(Some(key), true, now, Default, approval))
              && Announces(s, t, id, key)
            else outcome == Failed && t == s
  {
  }

  /** The key saved on the conversation is forgotten, and announced if it differs; one of another length
      stays and nothing is announced. */
  predicate Announces(s: Store, t: Store, id: Id, key: Key) {
    if id !in s.previous || |s.previous[id]| != |key| then t.previous == s.previous && t.emitted == s.emitted
    else t.previous == s.previous - {id} && t.emitted == if s.previous[id] == key then s.emitted else s.emitted + [id]
  }

  /** Another key than the known one. */
  lemma OtherSaveLeaves(s: Store, ours: set<Id>, id: Id, key: Key, approval: bool, noOverwrite: bool, now: nat, written: bool)
    requires |key| > 0 && id in s.keys && s.keys[id].publicKey.Some? && s.keys[id].publicKey.value != key
    ensures var (t, outcome) := AfterSave(s, ours, id, key, approval, noOverwrite, now, written);
            if noOverwrite then t == s && outcome == NewOrUnchanged
            else if |s.keys[id].publicKey.value| != |key| then t == s && outcome == Failed
            else if id in ours then t == s && outcome == NewOrUnchanged
            else if !written then t == s && outcome == Failed
            else
              && outcome == ReplacedExisting && t.emitted == s.emitted + [id] && t.previous == s.previous
              && Holds(s, t, id, Record(Some(key), false, now, if s.keys[id].verified == Default then Default else Unverified,
                                        approval))
  {
  }

  /** The known key: the approval is renewed while one is needed, and nothing else changes. */
  lemma SameSaveLeaves(s: Store, ours: set<Id>, id: Id, key: Key, approval: bool, noOverwrite: bool, now: nat, written: bool)
    requires |key| > 0 && id in s.keys && s.keys[id].publicKey == Some(key)
    ensures var (t, outcome) := AfterSave(s, ours, id, key, approval, noOverwrite, now, written);
            var r := s.keys[id];
            if noOverwrite || r.firstUse || now >= r.timestamp + 5000 || r.nonblockingApproval
            then t == s && outcome == NewOrUnchanged
            else
              var changed := Record(r.publicKey, r.firstUse, r.timestamp, r.verified, approval);
              && t == s.(keys := s.keys[id := changed], db := if written then s.db[id := changed] else s.db)
              && outcome == if written then NewOrUnchanged else Failed
  {
  }

  /** The empty key is refused. */
  lemma EmptySaveFails(s: Store, ours: set<Id>, id: Id, approval: bool, noOverwrite: bool, now: nat, written: bool)
    ensures AfterSave(s, ours, id, [], approval, noOverwrite, now, written) == (s, Failed)
  {
  }

  // ---------- updateIdentityAfterSync ----------

  /** A key and status as they are known: nothing is written. */
  lemma KnownSyncLeaves(s: Store, id: Id, status: Status, key: Key, now: nat, written: bool)
    requires id in s.keys && s.keys[id].publicKey == Some(key) && s.keys[id].verified == status
    ensures var (t, outcome) := AfterSync(s, id, status, key, now, written);
            outcome == AddMessage(false) && t.keys == s.keys && t.db == s.db && Quiet(s, t)
  {
  }

  /** Any other sync stores the key with the given status and an approval, the key as a first one exactly
      when there was no record; a known key of another length makes it throw. */
  lemma SyncLeaves(s: Store, id: Id, status: Status, key: Key, now: nat, written: bool)
    requires !(id in s.keys && s.keys[id].publicKey == Some(key) && s.keys[id].verified == status)
    ensures var (t, outcome) := AfterSync(s, id, status, key, now, written);
            if (id in s.keys && s.keys[id].publicKey.Some? && |s.keys[id].publicKey.value| != |key|) || now == 0 || !written
            then t == s && outcome == Failed
            else
              && outcome.AddMessage? && Holds(s, t, id, Record(Some(key), id !in s.keys, now, status, true))
              && (id !in s.keys ==> Announces(s, t, id, key))
              && (id in s.keys ==>
                    && t.previous == s.previous
                    && t.emitted == if s.keys[id].publicKey == Some(key) then s.emitted else s.emitted + [id])
  {
  }

  /** A synced key is trusted at once according to its status, and no other one is. */
  lemma SyncDecidesTrust(s: Store, ours: set<Id>, id: Id, status: Status, key: Key, now: nat, written: bool,
                         es: seq<Event>, anyKey: Key, later: nat)
    requires !(id in s.keys && s.keys[id].publicKey == Some(key) && s.keys[id].verified == status)
    requires AfterSync(s, id, status, key, now, written).1 != Failed && Elsewhere(es, id)
    ensures var t := DoAll(AfterSync(s, id, status, key, now, written).0, ours, es);
            TrustedForSending(t, id, anyKey, later) == Some(true) <==> anyKey == key && status != Unverified
  {
    SyncLeaves(s, id, status, key, now, written);
    ElsewhereKeepsTrust(AfterSync(s, id, status, key, now, written).0, ours, es, id, anyKey, later);
  }

  // ---------- contacts without a record ----------

  /** A record without a key trusts every key. */
  lemma KeylessTrustsAll(s: Store, id: Id, key: Key, now: nat)
    requires id in s.keys && s.keys[id].publicKey.None?
    ensures TrustedForSending(s, id, key, now) == Some(true)
  {
  }

  /** Without a record the key saved on the conversation decides, and without such a key everything is
      trusted. Saving a key then announces a change if and only if that key was not trusted before, unless
      the comparison throws; and from then on that key alone is trusted. */
  lemma UnknownContact(s: Store, ours: set<Id>, id: Id, key: Key, approval: bool, noOverwrite: bool, now: nat,
                       es: seq<Event>, other: Key, later: nat)
    requires id !in s.keys && |key| > 0 && Elsewhere(es, id)
    ensures TrustedForSending(s, id, key, later)
         == if id !in s.previous then Some(true)
            else if |s.previous[id]| != |key| then None else Some(s.previous[id] == key)
    ensures var t := AfterSave(s, ours, id, key, approval, noOverwrite, now, true).0;
            && (t.emitted == s.emitted + [id] <==> TrustedForSending(s, id, key, later) == Some(false))
            && (t.emitted == s.emitted <==> TrustedForSending(s, id, key, later) != Some(false))
            && (id in t.previous <==> TrustedForSending(s, id, key, later) == None)
            && (TrustedForSending(DoAll(t, ours, es), id, other, later) == Some(true) <==> other == key)
  {
    FirstSaveLeaves(s, ours, id, key, approval, noOverwrite, now, true);
    ElsewhereKeepsTrust(AfterSave(s, ours, id, key, approval, noOverwrite, now, true).0, ours, es, id, other, later);
  }

  // ---------- what counts as verified ----------

  /** A key is remembered as verified by a successful `setVerified` or sync with status VERIFIED only. */
  lemma VerifiedKeyExactly(s: Store, ours: set<Id>, e: Event)
    ensures var (t, outcome) := Do(s, ours, e);
            t.verifiedKey == match e
                             case Verify(id, Verified, _, _, _) =>
                               if outcome == Done && id in s.keys && s.keys[id].publicKey.Some?
                               then s.verifiedKey[id := s.keys[id].publicKey.value] else s.verifiedKey
                             case Sync(id, Verified, key, _, _) =>
                               if outcome.AddMessage? then s.verifiedKey[id := key] else s.verifiedKey
                             case _ => s.verifiedKey
  {
  }
}
