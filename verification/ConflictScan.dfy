/** Combining two conversations, and the scan for conflicts over the whole list.

    A removed conversation is no longer in the list or the lookups, but the scan may still hold it
    and read its attributes, so `models` keeps it. */
module ConflictScan {
  import opened Options
  import opened Conversations
  import opened ConversationMerge

  // ---------- removing and combining ----------

  function Without(s: seq<Ref>, x: Ref): (t: seq<Ref>)
    ensures forall r :: r in t <==> r in s && r != x
  {
    if s == [] then [] else if s[0] == x then Without(s[1..], x) else [s[0]] + Without(s[1..], x)
  }

  function DropEntry(index: Lookup, id: Option<Ident>, r: Ref): Lookup {
    if id.Some? && id.value in index && index[id.value] == r then index - {id.value} else index
  }

  /** `#removeFromLookup`: entries of another conversation stay. */
  function RemoveFromLookup(c: Controller, r: Ref): Controller
    requires r in c.models
  {
    var a := c.models[r];
    c.(byId := DropEntry(c.byId, Some(Local(r)), r), byE164 := DropEntry(c.byE164, a.e164, r),
       byServiceId := DropEntry(c.byServiceId, a.serviceId, r), byPni := DropEntry(c.byPni, a.pni, r),
       byGroupId := DropEntry(c.byGroupId, a.GroupId(), r))
  }

  function RemoveConversation(c: Controller, r: Ref): Controller
    requires r in c.models
  {
    RemoveFromLookup(c, r).(list := Without(c.list, r))
  }

  /** `#doCombineConversations` as far as the list and the lookups are concerned. */
  function Combine(c: Controller, current: Ref, obsolete: Ref): (d: Controller)
    requires current in c.models && obsolete in c.models
    ensures d.models == c.models
  {
    if c.Get(Local(obsolete)).None? then c
    else if c.models[obsolete].group.Some? != c.models[current].group.Some? then c
    else RemoveConversation(c, obsolete)
  }

  /** Local ids are only in the lookup by local id, and exactly those of listed conversations. */
  ghost predicate IdsAgree(c: Controller) {
    && (forall r | r in c.list :: r in c.models && Local(r) in c.byId && c.byId[Local(r)] == r)
    && (forall id | id in c.byId :: id.Local? && id.ref in c.list && c.byId[id] == id.ref)
    && (forall id | id in c.byE164 || id in c.byServiceId || id in c.byPni || id in c.byGroupId :: !id.Local?)
  }

  /** Combining takes the obsolete conversation out of the list, when it is still there. */
  lemma CombineRemoves(c: Controller, current: Ref, obsolete: Ref)
    requires IdsAgree(c) && current in c.models && obsolete in c.models
    requires c.models[obsolete].group.Some? == c.models[current].group.Some?
    ensures var d := Combine(c, current, obsolete); IdsAgree(d) && d.list == Without(c.list, obsolete)
  {
    if obsolete !in c.list {
      assert Local(obsolete) !in c.byId;
      WithoutAbsent(c.list, obsolete);
    }
  }

  lemma {:induction false} WithoutAbsent(s: seq<Ref>, x: Ref)
    requires x !in s
    ensures Without(s, x) == s
  {
    if s != [] {
      WithoutAbsent(s[1..], x);
    }
  }

  /** Handing the same pair over twice does no harm. */
  lemma SecondCombineIsNoOp(c: Controller, current: Ref, obsolete: Ref)
    requires IdsAgree(c) && current in c.models && obsolete in c.models
    requires c.models[obsolete].group.Some? == c.models[current].group.Some?
    ensures var d := Combine(c, current, obsolete); Combine(d, current, obsolete) == d
  {
    CombineRemoves(c, current, obsolete);
    var d := Combine(c, current, obsolete);
    assert Local(obsolete) !in d.byId;
    assert Local(obsolete) !in d.byE164 && Local(obsolete) !in d.byServiceId;
    assert Local(obsolete) !in d.byPni && Local(obsolete) !in d.byGroupId;
  }

  // ---------- the scan ----------

  datatype Scan = Scan(ctl: Controller, byServiceId: Lookup, byE164: Lookup, byGroupV2Id: Lookup)
  {
    predicate Known() {
      && (forall v | v in byServiceId :: byServiceId[v] in ctl.models)
      && (forall v | v in byE164 :: byE164[v] in ctl.models)
      && (forall v | v in byGroupV2Id :: byGroupV2Id[v] in ctl.models)
    }

    predicate Alive(r: Ref) { r in ctl.list }
  }

  function V2Id(a: Attrs): Option<Ident> {
    if a.group.None? then None
    else if a.group.value.isV2 then Some(a.group.value.groupId) else Some(a.group.value.derivedV2Id)
  }

  function ScanServiceId(s: Scan, r: Ref): (t: Scan)
    requires s.Known() && r in s.ctl.models
    ensures t.Known() && t.ctl.models == s.ctl.models && t.byE164 == s.byE164 && t.byGroupV2Id == s.byGroupV2Id
  {
    var a := s.ctl.models[r];
    if a.serviceId.None? then s
    else
      var v := a.serviceId.value;
      if v !in s.byServiceId then s.(byServiceId := s.byServiceId[v := r])
      else
        var existing := s.byServiceId[v];
        if a.e164.Some? then s.(ctl := Combine(s.ctl, r, existing), byServiceId := s.byServiceId[v := r])
        else s.(ctl := Combine(s.ctl, existing, r))
  }

  function ScanPni(s: Scan, r: Ref): (t: Scan)
    requires s.Known() && r in s.ctl.models
    ensures t.Known() && t.ctl.models == s.ctl.models && t.byE164 == s.byE164 && t.byGroupV2Id == s.byGroupV2Id
  {
    var a := s.ctl.models[r];
    if a.pni.None? then s
    else
      var v := a.pni.value;
      if v !in s.byServiceId then s.(byServiceId := s.byServiceId[v := r])
      else
        var existing := s.byServiceId[v];
        // The source asks here whether the conversation has a phone number or a PNI; it has a PNI.
        if existing == r then s
        else s.(ctl := Combine(s.ctl, r, existing), byServiceId := s.byServiceId[v := r])
  }

  /** Two contacts with the same number but different service ids: the older one loses the number. */
  predicate Splits(a: Attrs, existing: Attrs) {
    a.serviceId.Some? && existing.serviceId.Some? && a.serviceId != existing.serviceId
  }

  function ScanE164(s: Scan, r: Ref): (t: Scan)
    requires s.Known() && r in s.ctl.models
    ensures t.Known() && t.ctl.models.Keys == s.ctl.models.Keys
    ensures forall q | q in s.ctl.models :: t.ctl.models[q].group == s.ctl.models[q].group
  {
    var a := s.ctl.models[r];
    if a.e164.None? then s
    else
      var v := a.e164.value;
      if v !in s.byE164 then s.(byE164 := s.byE164[v := r])
      else
        var existing := s.byE164[v];
        var was := s.ctl.models[existing];
        if Splits(a, was) then
          s.(ctl := s.ctl.(models := s.ctl.models[existing := was.(e164 := None)]), byE164 := s.byE164[v := r])
        else if a.serviceId.Some? then s.(ctl := Combine(s.ctl, r, existing), byE164 := s.byE164[v := r])
        else s.(ctl := Combine(s.ctl, existing, r))
  }

  function ScanGroup(s: Scan, r: Ref): (t: Scan)
    requires s.Known() && r in s.ctl.models
    ensures t.Known() && t.ctl.models == s.ctl.models
  {
    var g := V2Id(s.ctl.models[r]);
    if g.None? then s
    else if g.value !in s.byGroupV2Id then s.(byGroupV2Id := s.byGroupV2Id[g.value := r])
    else
      var existing := s.byGroupV2Id[g.value];
      var was := s.ctl.models[existing];
      if s.ctl.models[r].group.value.isV2 && !(was.group.Some? && was.group.value.isV2) then
        s.(ctl := Combine(s.ctl, r, existing), byGroupV2Id := s.byGroupV2Id[g.value := r])
      else s.(ctl := Combine(s.ctl, existing, r))
  }

  /** The older conversation with the same number is one with a different service id. */
  predicate SplitsHere(s: Scan, r: Ref)
    requires s.Known() && r in s.ctl.models
  {
    var e164 := s.ctl.models[r].e164;
    e164.Some? && e164.value in s.byE164 && Splits(s.ctl.models[r], s.ctl.models[s.byE164[e164.value]])
  }

  /** One round of the loop; a number split skips the group part. */
  function Visit(s: Scan, r: Ref): (t: Scan)
    requires s.Known() && r in s.ctl.models
    ensures t.Known() && t.ctl.models.Keys == s.ctl.models.Keys
    ensures forall q | q in s.ctl.models :: t.ctl.models[q].group == s.ctl.models[q].group
  {
    var s2 := ScanPni(ScanServiceId(s, r), r);
    if SplitsHere(s2, r) then ScanE164(s2, r) else ScanGroup(ScanE164(s2, r), r)
  }

  // ---------- what each round keeps ----------

  /** The scan's own lookup leads from each identifier of `q` to `q`. */
  ghost predicate OwnsService(s: Scan, q: Ref)
    requires q in s.ctl.models
  {
    var v := s.ctl.models[q].serviceId;
    v.Some? ==> v.value in s.byServiceId && s.byServiceId[v.value] == q
  }

  ghost predicate OwnsPni(s: Scan, q: Ref)
    requires q in s.ctl.models
  {
    var v := s.ctl.models[q].pni;
    v.Some? ==> v.value in s.byServiceId && s.byServiceId[v.value] == q
  }

  ghost predicate OwnsE164(s: Scan, q: Ref)
    requires q in s.ctl.models
  {
    var v := s.ctl.models[q].e164;
    v.Some? ==> v.value in s.byE164 && s.byE164[v.value] == q
  }

  ghost predicate OwnsGroup(s: Scan, q: Ref)
    requires q in s.ctl.models
  {
    var g := V2Id(s.ctl.models[q]);
    g.Some? ==> g.value in s.byGroupV2Id && s.byGroupV2Id[g.value] == q
  }

  ghost predicate OwnsAll(s: Scan, q: Ref)
    requires q in s.ctl.models
  {
    OwnsService(s, q) && OwnsPni(s, q) && OwnsE164(s, q) && OwnsGroup(s, q)
  }

  /** Groups have no identifiers of contacts. */
  ghost predicate KindsApart(c: Controller) {
    forall q | q in c.models :: c.models[q].group.Some? ==> c.models[q].IsEmpty()
  }

  /** Where the entries lead: contacts in two lookups, groups in the third. */
  ghost predicate Entries(s: Scan, service: set<Ref>, e164: set<Ref>, groups: set<Ref>)
    requires s.Known()
  {
    && (forall v | v in s.byServiceId :: s.byServiceId[v] in service && s.ctl.models[s.byServiceId[v]].group.None?)
    && (forall v | v in s.byE164 :: s.byE164[v] in e164 && s.ctl.models[s.byE164[v]].group.None?)
    && (forall v | v in s.byGroupV2Id :: s.byGroupV2Id[v] in groups
          && V2Id(s.ctl.models[s.byGroupV2Id[v]]) == Some(v) && s.Alive(s.byGroupV2Id[v]))
  }

  ghost predicate Base(s: Scan, seen: set<Ref>) {
    && s.Known() && IdsAgree(s.ctl) && KindsApart(s.ctl) && seen <= s.ctl.models.Keys
    && (forall q | q in seen && s.Alive(q) :: OwnsAll(s, q))
  }

  /** What holds between two rounds. */
  ghost predicate ScanInv(s: Scan, seen: set<Ref>) {
    Base(s, seen) && Entries(s, seen, seen, seen)
  }

  /** What a round may do to the list: drop one of the conversations met so far, or none. */
  ghost predicate Drops(s: Scan, t: Scan, met: set<Ref>) {
    t.ctl.list == s.ctl.list || exists x :: x in met && t.ctl.list == Without(s.ctl.list, x)
  }

  lemma CombineKeepsBase(s: Scan, seen: set<Ref>, current: Ref, obsolete: Ref)
    requires Base(s, seen) && current in s.ctl.models && obsolete in s.ctl.models
    requires s.ctl.models[obsolete].group.Some? == s.ctl.models[current].group.Some?
    ensures var t := s.(ctl := Combine(s.ctl, current, obsolete));
            Base(t, seen) && t.ctl.list == Without(s.ctl.list, obsolete)
  {
    hide IdsAgree, Combine;
    CombineRemoves(s.ctl, current, obsolete);
  }

  lemma PutServiceKeepsBase(s: Scan, seen: set<Ref>, v: Ident, r: Ref)
    requires Base(s, seen) && r in s.ctl.models
    requires forall q | q in seen && s.Alive(q) :: s.ctl.models[q].serviceId != Some(v) && s.ctl.models[q].pni != Some(v)
    ensures Base(s.(byServiceId := s.byServiceId[v := r]), seen)
  {
    hide IdsAgree, KindsApart;
  }

  lemma PutE164KeepsBase(s: Scan, seen: set<Ref>, v: Ident, r: Ref)
    requires Base(s, seen) && r in s.ctl.models
    requires forall q | q in seen && s.Alive(q) :: s.ctl.models[q].e164 != Some(v)
    ensures Base(s.(byE164 := s.byE164[v := r]), seen)
  {
    hide IdsAgree, KindsApart;
  }

  /** Replacing the owner of `v`, after the old one is dropped. */
  lemma Replace(s: Scan, seen: set<Ref>, v: Ident, r: Ref)
    requires Base(s, seen) && r in s.ctl.models && v in s.byServiceId
    requires s.ctl.models[s.byServiceId[v]].group.Some? == s.ctl.models[r].group.Some?
    ensures var x := s.byServiceId[v];
            var t := s.(ctl := Combine(s.ctl, r, x), byServiceId := s.byServiceId[v := r]);
            Base(t, seen) && t.ctl.list == Without(s.ctl.list, x)
  {
    hide IdsAgree, Combine, KindsApart;
    var x := s.byServiceId[v];
    CombineKeepsBase(s, seen, r, x);
    PutServiceKeepsBase(s.(ctl := Combine(s.ctl, r, x)), seen, v, r);
  }

  lemma ServiceRound(s: Scan, seen: set<Ref>, r: Ref)
    requires ScanInv(s, seen) && r in s.ctl.models && r !in seen && s.ctl.models[r].group.None?
    ensures var t := ScanServiceId(s, r);
            && Base(t, seen) && Entries(t, seen + {r}, seen, seen) && Drops(s, t, seen + {r})
            && (t.Alive(r) ==> OwnsService(t, r))
  {
    hide IdsAgree, Combine, KindsApart;
    var a := s.ctl.models[r];
    if a.serviceId.Some? {
      var v := a.serviceId.value;
      if v !in s.byServiceId {
        PutServiceKeepsBase(s, seen, v, r);
      } else if a.e164.Some? {
        Replace(s, seen, v, r);
      } else {
        CombineKeepsBase(s, seen, s.byServiceId[v], r);
      }
    }
  }

  lemma PniRound(s: Scan, seen: set<Ref>, r: Ref)
    requires Base(s, seen) && Entries(s, seen + {r}, seen, seen) && r in s.ctl.models && r !in seen
    requires s.ctl.models[r].group.None? && (s.Alive(r) ==> OwnsService(s, r))
    ensures var t := ScanPni(s, r);
            && Base(t, seen) && Entries(t, seen + {r}, seen, seen) && Drops(s, t, seen + {r})
            && (t.Alive(r) ==> OwnsService(t, r) && OwnsPni(t, r))
  {
    hide IdsAgree, Combine, KindsApart;
    var a := s.ctl.models[r];
    if a.pni.Some? {
      var v := a.pni.value;
      if v !in s.byServiceId {
        PutServiceKeepsBase(s, seen, v, r);
      } else if s.byServiceId[v] != r {
        Replace(s, seen, v, r);
      }
    }
  }

  /** Before and after the part of a round that looks at the phone number. */
  ghost predicate E164Before(s: Scan, seen: set<Ref>, r: Ref) {
    && Base(s, seen) && Entries(s, seen + {r}, seen, seen) && r in s.ctl.models && r !in seen
    && s.ctl.models[r].group.None? && (s.Alive(r) ==> OwnsService(s, r) && OwnsPni(s, r))
  }

  ghost predicate E164After(s: Scan, t: Scan, seen: set<Ref>, r: Ref) {
    && Base(t, seen) && Entries(t, seen + {r}, seen + {r}, seen) && r in t.ctl.models
    && t.ctl.models[r].group.None? && Drops(s, t, seen + {r})
    && (t.Alive(r) ==> OwnsService(t, r) && OwnsPni(t, r) && OwnsE164(t, r))
  }

  lemma FirstWithPhone(s: Scan, seen: set<Ref>, r: Ref, v: Ident)
    requires E164Before(s, seen, r) && s.ctl.models[r].e164 == Some(v) && v !in s.byE164
    ensures E164After(s, s.(byE164 := s.byE164[v := r]), seen, r)
  {
    hide IdsAgree, KindsApart;
    PutE164KeepsBase(s, seen, v, r);
  }

  lemma OlderLosesPhone(s: Scan, seen: set<Ref>, r: Ref, v: Ident)
    requires E164Before(s, seen, r) && s.ctl.models[r].e164 == Some(v) && v in s.byE164 && SplitsHere(s, r)
    ensures E164After(s, ScanE164(s, r), seen, r)
  {
    hide IdsAgree, Combine, KindsApart;
    var x := s.byE164[v];
    DropE164KeepsBase(s, seen, x);
    PutE164KeepsBase(WithoutE164(s, x), seen, v, r);
  }

  lemma NewerWithPhone(s: Scan, seen: set<Ref>, r: Ref, v: Ident)
    requires E164Before(s, seen, r) && s.ctl.models[r].e164 == Some(v) && v in s.byE164
    ensures E164After(s, s.(ctl := Combine(s.ctl, r, s.byE164[v]), byE164 := s.byE164[v := r]), seen, r)
  {
    hide IdsAgree, Combine, KindsApart;
    CombineKeepsBase(s, seen, r, s.byE164[v]);
    PutE164KeepsBase(s.(ctl := Combine(s.ctl, r, s.byE164[v])), seen, v, r);
  }

  lemma OlderWithPhone(s: Scan, seen: set<Ref>, r: Ref, v: Ident)
    requires E164Before(s, seen, r) && s.ctl.models[r].e164 == Some(v) && v in s.byE164
    ensures E164After(s, s.(ctl := Combine(s.ctl, s.byE164[v], r)), seen, r)
  {
    hide IdsAgree, Combine, KindsApart;
    CombineKeepsBase(s, seen, s.byE164[v], r);
  }

  lemma E164Round(s: Scan, seen: set<Ref>, r: Ref)
    requires E164Before(s, seen, r)
    ensures E164After(s, ScanE164(s, r), seen, r)
  {
    hide IdsAgree, Combine, KindsApart, OwnsAll, OwnsService, OwnsPni;
    var a := s.ctl.models[r];
    if a.e164.Some? {
      var v := a.e164.value;
      if v !in s.byE164 {
        FirstWithPhone(s, seen, r, v);
      } else if SplitsHere(s, r) {
        OlderLosesPhone(s, seen, r, v);
      } else if a.serviceId.Some? {
        NewerWithPhone(s, seen, r, v);
      } else {
        OlderWithPhone(s, seen, r, v);
      }
    }
  }

  lemma ContactOwnsAll(s: Scan, t: Scan, seen: set<Ref>, r: Ref)
    requires E164After(s, t, seen, r)
    ensures Base(t, seen + {r}) && Entries(t, seen + {r}, seen + {r}, seen) && Drops(s, t, seen + {r})
  {
    hide IdsAgree, KindsApart, Entries, Drops, OwnsService, OwnsPni, OwnsE164;
  }

  function WithoutE164(s: Scan, x: Ref): Scan
    requires x in s.ctl.models
  {
    s.(ctl := s.ctl.(models := s.ctl.models[x := s.ctl.models[x].(e164 := None)]))
  }

  lemma DropE164KeepsBase(s: Scan, seen: set<Ref>, x: Ref)
    requires Base(s, seen) && x in s.ctl.models
    ensures Base(WithoutE164(s, x), seen)
  {
  }

  // ---------- groups ----------

  predicate IsV2Of(a: Attrs, g: Ident) { V2Id(a) == Some(g) && a.group.value.isV2 }

  /** The last V2 group of `t` with the id if there is one, otherwise the last V1 group. */
  ghost predicate IsBest(models: Models, t: seq<Ref>, r: Ref, g: Ident)
    requires forall q | q in t :: q in models
  {
    exists j :: 0 <= j < |t| && t[j] == r && V2Id(models[r]) == Some(g)
      && if models[r].group.value.isV2 then forall k :: j < k < |t| ==> !IsV2Of(models[t[k]], g)
         else (forall k :: 0 <= k < |t| ==> !IsV2Of(models[t[k]], g))
              && (forall k :: j < k < |t| ==> V2Id(models[t[k]]) != Some(g))
  }

  /** For the conversations visited so far, in list order. */
  ghost predicate BestKept(s: Scan, t: seq<Ref>)
    requires forall q | q in t :: q in s.ctl.models
  {
    && (forall q | q in t :: V2Id(s.ctl.models[q]).Some? ==> V2Id(s.ctl.models[q]).value in s.byGroupV2Id)
    && (forall g | g in s.byGroupV2Id :: IsBest(s.ctl.models, t, s.byGroupV2Id[g], g))
  }

  function SetOf(t: seq<Ref>): set<Ref> { set q | q in t }

  /** A newly visited conversation that does not beat the best so far. */
  lemma BestStays(models: Models, t: seq<Ref>, best: Ref, g: Ident, r: Ref)
    requires r in models && forall q | q in t :: q in models
    requires IsBest(models, t, best, g)
    requires V2Id(models[r]) == Some(g) && models[r].group.value.isV2 ==> models[best].group.value.isV2
    ensures IsBest(models, [r] + t, best, g)
  {
    var j :| 0 <= j < |t| && t[j] == best && V2Id(models[best]) == Some(g)
      && if models[best].group.value.isV2 then forall k :: j < k < |t| ==> !IsV2Of(models[t[k]], g)
         else (forall k :: 0 <= k < |t| ==> !IsV2Of(models[t[k]], g))
              && (forall k :: j < k < |t| ==> V2Id(models[t[k]]) != Some(g));
    assert ([r] + t)[j + 1] == best;
    assert forall k :: 0 < k < |t| + 1 ==> ([r] + t)[k] == t[k - 1];
  }

  /** The first one met, or a V2 group where there were only V1 groups. */
  lemma BestIsNew(models: Models, t: seq<Ref>, r: Ref, g: Ident)
    requires r in models && forall q | q in t :: q in models
    requires V2Id(models[r]) == Some(g)
    requires forall q | q in t :: !IsV2Of(models[q], g)
    requires models[r].group.value.isV2 || forall q | q in t :: V2Id(models[q]) != Some(g)
    ensures IsBest(models, [r] + t, r, g)
  {
    assert ([r] + t)[0] == r;
    assert forall k :: 0 < k < |t| + 1 ==> ([r] + t)[k] == t[k - 1] && t[k - 1] in t;
  }

  lemma BestKeptRound(s: Scan, t: seq<Ref>, r: Ref)
    requires s.Known() && r in s.ctl.models && (forall q | q in t :: q in s.ctl.models) && BestKept(s, t)
    ensures BestKept(ScanGroup(s, r), [r] + t)
  {
    var n := ScanGroup(s, r);
    var mine := V2Id(s.ctl.models[r]);
    forall g | g in n.byGroupV2Id
      ensures IsBest(n.ctl.models, [r] + t, n.byGroupV2Id[g], g)
    {
      if mine != Some(g) {
        BestStays(s.ctl.models, t, s.byGroupV2Id[g], g, r);
      } else if g !in s.byGroupV2Id {
        BestIsNew(s.ctl.models, t, r, g);
      } else if n.byGroupV2Id[g] == s.byGroupV2Id[g] {
        BestStays(s.ctl.models, t, s.byGroupV2Id[g], g, r);
      } else {
        BestIsNew(s.ctl.models, t, r, g);
      }
    }
  }

  lemma PutGroupKeepsBase(s: Scan, seen: set<Ref>, g: Ident, r: Ref)
    requires Base(s, seen) && r in s.ctl.models && s.ctl.models[r].group.Some? && V2Id(s.ctl.models[r]) == Some(g)
    requires forall q | q in seen && s.Alive(q) :: V2Id(s.ctl.models[q]) != Some(g)
    ensures Base(s.(byGroupV2Id := s.byGroupV2Id[g := r]), seen + {r})
  {
    hide IdsAgree;
    assert s.ctl.models[r].IsEmpty();
  }

  ghost predicate GroupBefore(s: Scan, seen: set<Ref>, r: Ref, g: Ident) {
    && ScanInv(s, seen) && r in s.ctl.models && r !in seen && s.Alive(r)
    && s.ctl.models[r].group.Some? && V2Id(s.ctl.models[r]) == Some(g)
  }

  lemma FirstGroup(s: Scan, seen: set<Ref>, r: Ref, g: Ident)
    requires GroupBefore(s, seen, r, g) && g !in s.byGroupV2Id
    ensures ScanInv(s.(byGroupV2Id := s.byGroupV2Id[g := r]), seen + {r})
  {
    hide IdsAgree, KindsApart, OwnsService, OwnsPni, OwnsE164;
    PutGroupKeepsBase(s, seen, g, r);
  }

  lemma OlderGroupStays(s: Scan, seen: set<Ref>, r: Ref, g: Ident)
    requires GroupBefore(s, seen, r, g) && g in s.byGroupV2Id
    ensures var x := s.byGroupV2Id[g]; var t := s.(ctl := Combine(s.ctl, x, r));
            ScanInv(t, seen + {r}) && t.ctl.list == Without(s.ctl.list, r)
  {
    hide IdsAgree, Combine, KindsApart, OwnsAll;
    CombineKeepsBase(s, seen, s.byGroupV2Id[g], r);
  }

  lemma NewerGroupStays(s: Scan, seen: set<Ref>, r: Ref, g: Ident)
    requires GroupBefore(s, seen, r, g) && g in s.byGroupV2Id
    ensures var x := s.byGroupV2Id[g];
            var t := s.(ctl := Combine(s.ctl, r, x), byGroupV2Id := s.byGroupV2Id[g := r]);
            ScanInv(t, seen + {r}) && t.ctl.list == Without(s.ctl.list, x)
  {
    hide IdsAgree, Combine, KindsApart, OwnsService, OwnsPni, OwnsE164;
    var x := s.byGroupV2Id[g];
    CombineKeepsBase(s, seen, r, x);
    PutGroupKeepsBase(s.(ctl := Combine(s.ctl, r, x)), seen, g, r);
  }

  lemma GroupRound(s: Scan, seen: set<Ref>, r: Ref, g: Ident)
    requires GroupBefore(s, seen, r, g)
    ensures var t := ScanGroup(s, r);
            ScanInv(t, seen + {r}) && Drops(s, t, seen + {r})
  {
    hide IdsAgree, Combine, KindsApart, OwnsAll;
    if g !in s.byGroupV2Id {
      FirstGroup(s, seen, r, g);
    } else if ScanGroup(s, r).byGroupV2Id[g] == s.byGroupV2Id[g] {
      OlderGroupStays(s, seen, r, g);
    } else {
      NewerGroupStays(s, seen, r, g);
    }
  }

  // ---------- a whole round ----------

  lemma {:induction false} WithoutKeepsPrefix(p: seq<Ref>, s: seq<Ref>, x: Ref)
    requires p <= s && x !in p
    ensures p <= Without(s, x)
  {
    if p != [] {
      WithoutKeepsPrefix(p[1..], s[1..], x);
    }
  }

  lemma DropKeepsPrefix(s: Scan, t: Scan, met: set<Ref>, p: seq<Ref>)
    requires Drops(s, t, met) && p <= s.ctl.list && forall q | q in p :: q !in met
    ensures p <= t.ctl.list && forall q | q in t.ctl.list :: q in s.ctl.list
  {
    if t.ctl.list != s.ctl.list {
      var x :| x in met && t.ctl.list == Without(s.ctl.list, x);
      WithoutKeepsPrefix(p, s.ctl.list, x);
    }
  }

  /** What comes between two rounds: the conversations `t` are visited, `p` and `r` are to come. */
  ghost predicate Between(s: Scan, t: seq<Ref>, p: seq<Ref>, r: Ref) {
    && ScanInv(s, SetOf(t)) && (forall q | q in t :: q in s.ctl.models) && BestKept(s, t)
    && r in s.ctl.models && r !in t && s.Alive(r)
    && p <= s.ctl.list && forall q | q in p :: q !in t && q != r
  }

  lemma GroupVisit(s: Scan, t: seq<Ref>, p: seq<Ref>, r: Ref)
    requires Between(s, t, p, r) && s.Known() && s.ctl.models[r].group.Some?
    ensures var n := Visit(s, r);
            && ScanInv(n, SetOf([r] + t)) && BestKept(n, [r] + t)
            && p <= n.ctl.list && forall q | q in n.ctl.list :: q in s.ctl.list
  {
    hide IdsAgree, Combine, IsBest, ScanGroup;
    var seen := SetOf(t);
    assert SetOf([r] + t) == seen + {r};
    assert s.ctl.models[r].IsEmpty();
    assert Visit(s, r) == ScanGroup(s, r);
    GroupRound(s, seen, r, V2Id(s.ctl.models[r]).value);
    BestKeptRound(s, t, r);
    DropKeepsPrefix(s, ScanGroup(s, r), seen + {r}, p);
  }

  lemma ContactVisit(s: Scan, t: seq<Ref>, p: seq<Ref>, r: Ref)
    requires Between(s, t, p, r) && s.Known() && s.ctl.models[r].group.None?
    ensures var n := Visit(s, r);
            && ScanInv(n, SetOf([r] + t)) && BestKept(n, [r] + t)
            && p <= n.ctl.list && forall q | q in n.ctl.list :: q in s.ctl.list
  {
    hide ScanInv, IsBest, Visit;
    var seen := SetOf(t);
    assert SetOf([r] + t) == seen + {r};
    var n := Visit(s, r);
    ContactRounds(s, seen, p, r);
    forall g | g in n.byGroupV2Id
      ensures IsBest(n.ctl.models, [r] + t, n.byGroupV2Id[g], g)
    {
      BestStays(s.ctl.models, t, s.byGroupV2Id[g], g, r);
      SameGroupsSameBest(s.ctl.models, n.ctl.models, [r] + t, s.byGroupV2Id[g], g);
    }
  }

  /** The conversations before `r` in the list stay where they are, and nothing comes back. */
  lemma VisitKeeps(s: Scan, t: seq<Ref>, p: seq<Ref>, r: Ref)
    requires Between(s, t, p, r)
    ensures s.Known()
    ensures var n := Visit(s, r);
            && ScanInv(n, SetOf([r] + t)) && BestKept(n, [r] + t)
            && p <= n.ctl.list && forall q | q in n.ctl.list :: q in s.ctl.list
  {
    hide Visit, BestKept, SetOf;
    assert s.Known();
    if s.ctl.models[r].group.Some? {
      GroupVisit(s, t, p, r);
    } else {
      ContactVisit(s, t, p, r);
    }
  }

  lemma SameGroupsSameBest(models: Models, after: Models, t: seq<Ref>, r: Ref, g: Ident)
    requires (forall q | q in t :: q in models && q in after && after[q].group == models[q].group)
    requires IsBest(models, t, r, g)
    ensures IsBest(after, t, r, g)
  {
  }

  lemma ContactRounds(s: Scan, seen: set<Ref>, p: seq<Ref>, r: Ref)
    requires s.Known() && ScanInv(s, seen) && r in s.ctl.models && r !in seen && s.ctl.models[r].group.None?
    requires p <= s.ctl.list && forall q | q in p :: q !in seen && q != r
    ensures var n := Visit(s, r);
            && ScanInv(n, seen + {r}) && n.byGroupV2Id == s.byGroupV2Id
            && (forall q | q in s.ctl.models :: n.ctl.models[q].group == s.ctl.models[q].group)
            && p <= n.ctl.list && forall q | q in n.ctl.list :: q in s.ctl.list
  {
    hide IdsAgree, Combine, KindsApart, Base, Drops, ScanServiceId, ScanPni, OwnsService, OwnsPni, Entries;
    ServiceRound(s, seen, r);
    var s1 := ScanServiceId(s, r);
    DropKeepsPrefix(s, s1, seen + {r}, p);
    PniRound(s1, seen, r);
    var s2 := ScanPni(s1, r);
    DropKeepsPrefix(s1, s2, seen + {r}, p);
    E164Round(s2, seen, r);
    var s3 := ScanE164(s2, r);
    ContactOwnsAll(s2, s3, seen, r);
    DropKeepsPrefix(s2, s3, seen + {r}, p);
    EntriesGrow(s3, seen + {r}, seen + {r}, seen, seen + {r});
  }

  lemma EntriesGrow(s: Scan, service: set<Ref>, e164: set<Ref>, groups: set<Ref>, more: set<Ref>)
    requires s.Known() && Entries(s, service, e164, groups) && groups <= more
    ensures Entries(s, service, e164, more)
  {
  }

  // ---------- the whole scan ----------

  /** The backward loop: at index `i - 1` it reads the list as it is by then. */
  function ScanDown(s: Scan, i: nat): Scan
    requires s.Known()
    decreases i
  {
    if i == 0 || i > |s.ctl.list| || s.ctl.list[i - 1] !in s.ctl.models then s
    else ScanDown(Visit(s, s.ctl.list[i - 1]), i - 1)
  }

  /** The conversations the loop visits, in order. */
  function Visited(s: Scan, i: nat): seq<Ref>
    requires s.Known()
    decreases i
  {
    if i == 0 || i > |s.ctl.list| || s.ctl.list[i - 1] !in s.ctl.models then []
    else [s.ctl.list[i - 1]] + Visited(Visit(s, s.ctl.list[i - 1]), i - 1)
  }

  function Reversed(t: seq<Ref>): seq<Ref> {
    if t == [] then [] else [t[|t| - 1]] + Reversed(t[..|t| - 1])
  }

  ghost predicate Distinct(t: seq<Ref>) {
    forall i, j :: 0 <= i < j < |t| ==> t[i] != t[j]
  }

  /** Between two rounds: the first `i` of the list are as in the beginning, the others are visited. */
  ghost predicate Halfway(s: Scan, original: seq<Ref>, i: nat) {
    && i <= |original| && Distinct(original) && s.Known()
    && (forall q | q in original :: q in s.ctl.models)
    && (forall q | q in s.ctl.list :: q in original)
    && original[..i] <= s.ctl.list
    && ScanInv(s, SetOf(original[i..])) && BestKept(s, original[i..])
  }

  lemma HalfwayRound(s: Scan, original: seq<Ref>, i: nat)
    requires Halfway(s, original, i) && i > 0
    ensures i <= |s.ctl.list| && s.ctl.list[i - 1] == original[i - 1]
    ensures Halfway(Visit(s, original[i - 1]), original, i - 1)
  {
    hide ScanInv, BestKept, Visit;
    var r, p := original[i - 1], original[..i - 1];
    assert original[..i][i - 1] == r;
    assert original[i - 1..] == [r] + original[i..];
    forall q | q in p
      ensures q !in original[i..] && q != r
    {
      var k :| 0 <= k < i - 1 && original[k] == q;
    }
    assert p <= original[..i];
    VisitKeeps(s, original[i..], p, r);
  }

  lemma {:induction false} ScanDownEnds(s: Scan, original: seq<Ref>, i: nat)
    requires Halfway(s, original, i)
    ensures Halfway(ScanDown(s, i), original, 0)
    ensures Visited(s, i) == Reversed(original[..i])
    decreases i
  {
    hide ScanInv, BestKept, Visit;
    if i > 0 {
      HalfwayRound(s, original, i);
      ScanDownEnds(Visit(s, original[i - 1]), original, i - 1);
      assert original[..i][..i - 1] == original[..i - 1];
    }
  }

  /** What may not remain between two conversations; a PNI counts in either slot. */
  predicate Conflict(a: Attrs, b: Attrs) {
    || (a.serviceId.Some? && (b.serviceId == a.serviceId || b.pni == a.serviceId))
    || (a.pni.Some? && (b.serviceId == a.pni || b.pni == a.pni))
    || (a.e164.Some? && b.e164 == a.e164)
  }

  ghost predicate ScanStart(c: Controller) {
    IdsAgree(c) && KindsApart(c) && Distinct(c.list)
  }

  lemma StartIsHalfway(c: Controller)
    requires ScanStart(c)
    ensures Halfway(Scan(c, map[], map[], map[]), c.list, |c.list|)
  {
    assert c.list[..|c.list|] == c.list && c.list[|c.list|..] == [];
  }

  /** Every conversation of the original list is visited exactly once, last to first, although
      the list shrinks meanwhile. */
  lemma VisitsEachOnce(c: Controller)
    requires ScanStart(c)
    ensures Visited(Scan(c, map[], map[], map[]), |c.list|) == Reversed(c.list)
  {
    StartIsHalfway(c);
    ScanDownEnds(Scan(c, map[], map[], map[]), c.list, |c.list|);
    assert c.list[..|c.list|] == c.list;
  }

  lemma OwnersDoNotConflict(s: Scan, q: Ref, r: Ref)
    requires q in s.ctl.models && r in s.ctl.models && q != r && OwnsAll(s, q) && OwnsAll(s, r)
    ensures !Conflict(s.ctl.models[q], s.ctl.models[r])
    ensures V2Id(s.ctl.models[q]).Some? ==> V2Id(s.ctl.models[q]) != V2Id(s.ctl.models[r])
  {
  }

  /** What holds of every listed conversation when the loop is through. */
  lemma AllOwn(c: Controller)
    requires ScanStart(c)
    ensures var n := ScanDown(Scan(c, map[], map[], map[]), |c.list|);
            && n.Known() && (forall q | q in c.list :: q in n.ctl.models) && BestKept(n, c.list)
            && (forall q | q in n.ctl.list :: q in c.list && OwnsAll(n, q))
            && (forall g | g in n.byGroupV2Id :: n.Alive(n.byGroupV2Id[g]) && V2Id(n.ctl.models[n.byGroupV2Id[g]]) == Some(g))
  {
    hide IdsAgree, KindsApart, BestKept, ScanDown, OwnsAll;
    StartIsHalfway(c);
    ScanDownEnds(Scan(c, map[], map[], map[]), c.list, |c.list|);
    assert c.list[0..] == c.list;
  }

  /** No two remaining conversations share a service id, a PNI or a phone number. */
  lemma NoConflictsRemain(c: Controller)
    requires ScanStart(c)
    ensures var d := ScanDown(Scan(c, map[], map[], map[]), |c.list|).ctl;
            && (forall q | q in d.list :: q in d.models)
            && forall q, r | q in d.list && r in d.list && q != r :: !Conflict(d.models[q], d.models[r])
  {
    hide ScanStart, ScanDown, BestKept, OwnsAll, Conflict;
    AllOwn(c);
    var n := ScanDown(Scan(c, map[], map[], map[]), |c.list|);
    forall q, r | q in n.ctl.list && r in n.ctl.list && q != r
      ensures !Conflict(n.ctl.models[q], n.ctl.models[r])
    {
      OwnersDoNotConflict(n, q, r);
    }
  }

  ghost predicate SoleSurvivor(d: Controller, original: seq<Ref>, r: Ref, g: Ident) {
    && r in d.list && (forall q | q in original :: q in d.models) && IsBest(d.models, original, r, g)
    && (forall q | q in d.list :: q in d.models && (V2Id(d.models[q]) == Some(g) ==> q == r))
  }

  /** Exactly one group remains for each V2 group id, given or derived: the last V2 group of the
      original list if there is one, otherwise the last V1 group. */
  lemma OneGroupRemains(c: Controller, g: Ident)
    requires ScanStart(c) && exists q :: q in c.list && V2Id(c.models[q]) == Some(g)
    ensures var d := ScanDown(Scan(c, map[], map[], map[]), |c.list|).ctl;
            && (forall q | q in c.models :: q in d.models && d.models[q].group == c.models[q].group)
            && exists r :: SoleSurvivor(d, c.list, r, g)
  {
    hide ScanDown, OwnsAll, IsBest, IdsAgree, KindsApart;
    AllOwn(c);
    var s := Scan(c, map[], map[], map[]);
    var n := ScanDown(s, |c.list|);
    GroupsSurvive(s, |c.list|);
    var q :| q in c.list && V2Id(c.models[q]) == Some(g);
    assert V2Id(n.ctl.models[q]) == Some(g);
    var r := n.byGroupV2Id[g];
    forall x | x in n.ctl.list && V2Id(n.ctl.models[x]) == Some(g)
      ensures x == r
    {
      if x != r { OwnersDoNotConflict(n, x, r); }
    }
    assert SoleSurvivor(n.ctl, c.list, r, g);
  }

  /** The scan never changes what group a conversation is. */
  lemma {:induction false} GroupsSurvive(s: Scan, i: nat)
    requires s.Known()
    ensures ScanDown(s, i).ctl.models.Keys == s.ctl.models.Keys
    ensures forall q | q in s.ctl.models :: ScanDown(s, i).ctl.models[q].group == s.ctl.models[q].group
    decreases i
  {
    hide Visit;
    if 0 < i <= |s.ctl.list| && s.ctl.list[i - 1] in s.ctl.models {
      GroupsSurvive(Visit(s, s.ctl.list[i - 1]), i - 1);
    }
  }
}
