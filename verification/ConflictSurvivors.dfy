/** The scan for conflicts spares whoever is in no conflict. */
module ConflictSurvivors {
  import opened Options
  import opened Conversations
  import opened ConversationMerge
  import opened ConflictScan

  predicate HasServiceId(a: Attrs, v: Ident) { a.serviceId == Some(v) || a.pni == Some(v) }

  /** The scan's lookups lead to holders of the identifier, as they were in the beginning, and of the
      attributes at most a phone number is gone. */
  ghost predicate Tied(s: Scan, c: Controller) {
    && s.Known() && s.ctl.models.Keys == c.models.Keys
    && (forall v | v in s.byServiceId :: HasServiceId(c.models[s.byServiceId[v]], v) && s.byServiceId[v] in c.list)
    && (forall v | v in s.byE164 :: c.models[s.byE164[v]].e164 == Some(v) && s.byE164[v] in c.list)
    && (forall v | v in s.byGroupV2Id :: V2Id(c.models[s.byGroupV2Id[v]]) == Some(v) && s.byGroupV2Id[v] in c.list)
    && (forall q | q in c.models :: s.ctl.models[q] == c.models[q] || s.ctl.models[q] == c.models[q].(e164 := None))
  }

  /** Nobody else in the list shares an identifier, or a V2 group id, with `x`. */
  ghost predicate InNoConflict(c: Controller, x: Ref) {
    && x in c.list && (forall q | q in c.list :: q in c.models)
    && forall q | q in c.list && q != x ::
         && !Conflict(c.models[x], c.models[q])
         && (V2Id(c.models[x]).Some? ==> V2Id(c.models[x]) != V2Id(c.models[q]))
  }

  // ---------- rounds that do not concern a conversation ----------

  lemma CombineTied(s: Scan, c: Controller, current: Ref, obsolete: Ref)
    requires Tied(s, c) && current in s.ctl.models && obsolete in s.ctl.models
    ensures Tied(s.(ctl := Combine(s.ctl, current, obsolete)), c)
  {
    hide RemoveFromLookup, Controller.Get;
  }

  lemma ServicePutTied(s: Scan, c: Controller, r: Ref, v: Ident)
    requires Tied(s, c) && r in c.list && r in c.models && HasServiceId(c.models[r], v)
    ensures Tied(s.(byServiceId := s.byServiceId[v := r]), c)
  {
  }

  lemma ServiceTied(s: Scan, c: Controller, r: Ref)
    requires Tied(s, c) && r in c.list && r in c.models
    ensures s.Known() && r in s.ctl.models && Tied(ScanServiceId(s, r), c)
  {
    hide Combine, Tied;
    TiedKnows(s, c);
    TiedAttrs(s, c, r);
    if s.ctl.models[r].serviceId.Some? {
      var v := s.ctl.models[r].serviceId.value;
      if v !in s.byServiceId {
        ServicePutTied(s, c, r, v);
      } else {
        CombineTied(s, c, r, s.byServiceId[v]);
        ServicePutTied(s.(ctl := Combine(s.ctl, r, s.byServiceId[v])), c, r, v);
        CombineTied(s, c, s.byServiceId[v], r);
      }
    }
  }

  lemma PniTied(s: Scan, c: Controller, r: Ref)
    requires Tied(s, c) && r in c.list && r in c.models
    ensures s.Known() && r in s.ctl.models && Tied(ScanPni(s, r), c)
  {
    hide Combine, Tied;
    TiedKnows(s, c);
    TiedAttrs(s, c, r);
    if s.ctl.models[r].pni.Some? {
      var v := s.ctl.models[r].pni.value;
      ServicePutTied(s, c, r, v);
      if v in s.byServiceId {
        CombineTied(s, c, r, s.byServiceId[v]);
        ServicePutTied(s.(ctl := Combine(s.ctl, r, s.byServiceId[v])), c, r, v);
      }
    }
  }

  lemma TiedAttrs(s: Scan, c: Controller, r: Ref)
    requires Tied(s, c) && r in s.ctl.models
    ensures r in c.models && (s.ctl.models[r] == c.models[r] || s.ctl.models[r] == c.models[r].(e164 := None))
  {
  }

  lemma NumberTied(s: Scan, c: Controller, r: Ref, v: Ident)
    requires Tied(s, c) && r in c.models && s.ctl.models[r].e164 == Some(v)
    ensures c.models[r].e164 == Some(v)
    ensures v in s.byE164 ==> s.byE164[v] in s.ctl.models && s.byE164[v] in c.models && c.models[s.byE164[v]].e164 == Some(v)
  {
  }

  lemma PutTied(s: Scan, c: Controller, r: Ref, v: Ident)
    requires Tied(s, c) && r in c.list && r in c.models && c.models[r].e164 == Some(v)
    ensures Tied(s.(byE164 := s.byE164[v := r]), c)
  {
  }

  lemma DropTied(s: Scan, c: Controller, y: Ref)
    requires Tied(s, c) && y in s.ctl.models
    ensures Tied(s.(ctl := s.ctl.(models := s.ctl.models[y := s.ctl.models[y].(e164 := None)])), c)
  {
  }

  lemma E164Tied(s: Scan, c: Controller, r: Ref)
    requires Tied(s, c) && r in c.list && r in c.models
    ensures s.Known() && r in s.ctl.models && Tied(ScanE164(s, r), c)
  {
    hide Combine, Tied;
    TiedKnows(s, c);
    if s.ctl.models[r].e164.Some? {
      var v := s.ctl.models[r].e164.value;
      NumberTied(s, c, r, v);
      if v !in s.byE164 {
        PutTied(s, c, r, v);
      } else {
        var y := s.byE164[v];
        DropTied(s, c, y);
        PutTied(s.(ctl := s.ctl.(models := s.ctl.models[y := s.ctl.models[y].(e164 := None)])), c, r, v);
        CombineTied(s, c, r, y);
        PutTied(s.(ctl := Combine(s.ctl, r, y)), c, r, v);
        CombineTied(s, c, y, r);
      }
    }
  }

  lemma GroupPutTied(s: Scan, c: Controller, r: Ref, g: Ident)
    requires Tied(s, c) && r in c.list && r in c.models && V2Id(s.ctl.models[r]) == Some(g)
    ensures Tied(s.(byGroupV2Id := s.byGroupV2Id[g := r]), c)
  {
  }

  lemma GroupTied(s: Scan, c: Controller, r: Ref)
    requires Tied(s, c) && r in c.list && r in c.models
    ensures s.Known() && r in s.ctl.models && Tied(ScanGroup(s, r), c)
  {
    hide Combine, Tied, V2Id;
    TiedKnows(s, c);
    var g := V2Id(s.ctl.models[r]);
    if g.Some? {
      if g.value !in s.byGroupV2Id {
        GroupPutTied(s, c, r, g.value);
      } else {
        var y := s.byGroupV2Id[g.value];
        CombineTied(s, c, y, r);
        CombineTied(s, c, r, y);
        GroupPutTied(s.(ctl := Combine(s.ctl, r, y)), c, r, g.value);
      }
    }
  }

  lemma VisitTied(s: Scan, c: Controller, r: Ref)
    requires Tied(s, c) && r in c.list && r in c.models
    ensures Tied(Visit(s, r), c)
  {
    hide Tied, ScanServiceId, ScanPni, ScanE164, ScanGroup, SplitsHere;
    TiedKnows(s, c);
    ServiceTied(s, c, r);
    PniTied(ScanServiceId(s, r), c, r);
    var s2 := ScanPni(ScanServiceId(s, r), r);
    E164Tied(s2, c, r);
    GroupTied(ScanE164(s2, r), c, r);
  }

  lemma TiedKnows(s: Scan, c: Controller)
    requires Tied(s, c)
    ensures s.Known() && s.ctl.models.Keys == c.models.Keys
  {
  }

  /** Nothing that concerns `x` differs: whether it is there, its attributes, and the entries of the scan's
      lookups for its identifiers. */
  ghost predicate Aside(s: Scan, t: Scan, c: Controller, x: Ref) {
    && x in c.models && x in s.ctl.models && x in t.ctl.models
    && (x in t.ctl.list <==> x in s.ctl.list) && t.ctl.models[x] == s.ctl.models[x]
    && (forall v | HasServiceId(c.models[x], v) ::
          (v in t.byServiceId <==> v in s.byServiceId) && (v in s.byServiceId ==> t.byServiceId[v] == s.byServiceId[v]))
    && (forall v | c.models[x].e164 == Some(v) ::
          (v in t.byE164 <==> v in s.byE164) && (v in s.byE164 ==> t.byE164[v] == s.byE164[v]))
  }

  lemma CombineAside(s: Scan, c: Controller, x: Ref, current: Ref, obsolete: Ref)
    requires current in s.ctl.models && obsolete in s.ctl.models && x != obsolete && x in c.models && x in s.ctl.models
    ensures Aside(s, s.(ctl := Combine(s.ctl, current, obsolete)), c, x)
  {
    hide RemoveFromLookup, Controller.Get;
  }

  /** `r` shares no identifier with `x`, and no V2 group id. */
  ghost predicate Apart(c: Controller, x: Ref, r: Ref) {
    && x in c.list && x in c.models && r in c.list && r in c.models && r != x
    && !Conflict(c.models[x], c.models[r]) && (V2Id(c.models[x]).Some? ==> V2Id(c.models[x]) != V2Id(c.models[r]))
  }

  lemma ApartKeys(c: Controller, x: Ref, r: Ref, v: Ident)
    requires Apart(c, x, r)
    ensures !(HasServiceId(c.models[x], v) && HasServiceId(c.models[r], v))
    ensures !(c.models[x].e164 == Some(v) && c.models[r].e164 == Some(v))
  {
  }

  lemma ServiceAside(s: Scan, c: Controller, x: Ref, r: Ref)
    requires Tied(s, c) && Apart(c, x, r)
    ensures Aside(s, ScanServiceId(s, r), c, x)
  {
    hide Combine, V2Id, Conflict;
    var a := s.ctl.models[r];
    if a.serviceId.Some? {
      var v := a.serviceId.value;
      ApartKeys(c, x, r, v);
      if v in s.byServiceId && s.byServiceId[v] != x {
        CombineAside(s, c, x, r, s.byServiceId[v]);
        CombineAside(s, c, x, s.byServiceId[v], r);
      }
    }
  }

  lemma PniAside(s: Scan, c: Controller, x: Ref, r: Ref)
    requires Tied(s, c) && Apart(c, x, r)
    ensures Aside(s, ScanPni(s, r), c, x)
  {
    hide Combine, V2Id, Conflict;
    var a := s.ctl.models[r];
    if a.pni.Some? {
      var v := a.pni.value;
      ApartKeys(c, x, r, v);
      if v in s.byServiceId && s.byServiceId[v] != x {
        CombineAside(s, c, x, r, s.byServiceId[v]);
      }
    }
  }

  lemma PutAside(s: Scan, c: Controller, x: Ref, r: Ref, v: Ident)
    requires x in c.models && x in s.ctl.models && r in s.ctl.models && c.models[x].e164 != Some(v)
    ensures Aside(s, s.(byE164 := s.byE164[v := r]), c, x)
  {
  }

  lemma DropAside(s: Scan, c: Controller, x: Ref, y: Ref)
    requires x in c.models && x in s.ctl.models && y in s.ctl.models && y != x
    ensures Aside(s, s.(ctl := s.ctl.(models := s.ctl.models[y := s.ctl.models[y].(e164 := None)])), c, x)
  {
  }

  lemma E164Aside(s: Scan, c: Controller, x: Ref, r: Ref)
    requires Tied(s, c) && Apart(c, x, r)
    ensures s.Known() && r in s.ctl.models && Aside(s, ScanE164(s, r), c, x)
  {
    hide Combine, Conflict, Tied, Aside;
    TiedKnows(s, c);
    SameAside(s, c, x);
    if s.ctl.models[r].e164.Some? {
      var v := s.ctl.models[r].e164.value;
      NumberTied(s, c, r, v);
      ApartKeys(c, x, r, v);
      if v !in s.byE164 {
        PutAside(s, c, x, r, v);
      } else {
        var y := s.byE164[v];
        var dropped := s.(ctl := s.ctl.(models := s.ctl.models[y := s.ctl.models[y].(e164 := None)]));
        var combined := s.(ctl := Combine(s.ctl, r, y));
        ApartKeys(c, x, r, v);
        if y != x {
          DropAside(s, c, x, y);
          PutAside(dropped, c, x, r, v);
          AsideTwice(s, dropped, dropped.(byE164 := s.byE164[v := r]), c, x);
          CombineAside(s, c, x, r, y);
          PutAside(combined, c, x, r, v);
          AsideTwice(s, combined, combined.(byE164 := s.byE164[v := r]), c, x);
          CombineAside(s, c, x, y, r);
        }
      }
    }
  }

  lemma SameAside(s: Scan, c: Controller, x: Ref)
    requires x in c.models && x in s.ctl.models
    ensures Aside(s, s, c, x)
  {
  }

  lemma GroupAside(s: Scan, c: Controller, x: Ref, r: Ref)
    requires Tied(s, c) && Apart(c, x, r)
    ensures Aside(s, ScanGroup(s, r), c, x)
  {
    hide Combine, Conflict;
    var g := V2Id(s.ctl.models[r]);
    if g.Some? && g.value in s.byGroupV2Id {
      var y := s.byGroupV2Id[g.value];
      CombineAside(s, c, x, r, y);
      CombineAside(s, c, x, y, r);
    }
  }

  lemma AsideTwice(s: Scan, t: Scan, u: Scan, c: Controller, x: Ref)
    requires Aside(s, t, c, x) && Aside(t, u, c, x)
    ensures Aside(s, u, c, x)
  {
  }

  lemma VisitAside(s: Scan, c: Controller, x: Ref, r: Ref)
    requires Tied(s, c) && Apart(c, x, r)
    ensures s.Known() && r in s.ctl.models && Aside(s, Visit(s, r), c, x)
  {
    hide Tied, Aside, ScanServiceId, ScanPni, ScanE164, ScanGroup, SplitsHere, Conflict;
    TiedKnows(s, c);
    ServiceTied(s, c, r);
    ServiceAside(s, c, x, r);
    var s1 := ScanServiceId(s, r);
    PniTied(s1, c, r);
    PniAside(s1, c, x, r);
    var s2 := ScanPni(s1, r);
    E164Tied(s2, c, r);
    E164Aside(s2, c, x, r);
    var s3 := ScanE164(s2, r);
    GroupAside(s3, c, x, r);
    AsideTwice(s, s1, s2, c, x);
    AsideTwice(s, s2, s3, c, x);
    AsideTwice(s, s3, ScanGroup(s3, r), c, x);
  }

  // ---------- rounds in general ----------

  /** No entry leads to `r`, which is yet to be visited. */
  predicate NotYet(s: Scan, r: Ref) {
    && (forall v | v in s.byServiceId :: s.byServiceId[v] != r)
    && (forall v | v in s.byE164 :: s.byE164[v] != r)
    && (forall v | v in s.byGroupV2Id :: s.byGroupV2Id[v] != r)
  }

  lemma NotVisitedSoFar(s: Scan, original: seq<Ref>, i: nat)
    requires Halfway(s, original, i)
    ensures IdsAgree(s.ctl) && forall k :: 0 <= k < i ==> NotYet(s, original[k])
  {
  }

  lemma RoundBegins(s: Scan, c: Controller, i: nat)
    requires Halfway(s, c.list, i) && i > 0 && Tied(s, c)
    ensures s.Known() && i <= |s.ctl.list| && s.ctl.list[i - 1] == c.list[i - 1] && c.list[i - 1] in c.models
    ensures c.list[i - 1] in s.ctl.models && IdsAgree(s.ctl)
    ensures forall k :: 0 <= k < i ==> NotYet(s, c.list[k])
    ensures var t := Visit(s, c.list[i - 1]); Halfway(t, c.list, i - 1) && Tied(t, c)
    ensures ScanDown(s, i) == ScanDown(Visit(s, c.list[i - 1]), i - 1)
  {
    hide Tied, Visit, BestKept, IdsAgree, KindsApart;
    HalfwayRound(s, c.list, i);
    TiedKnows(s, c);
    NotVisitedSoFar(s, c.list, i);
    VisitTied(s, c, c.list[i - 1]);
  }

  lemma ScanIsOver(s: Scan)
    requires s.Known()
    ensures ScanDown(s, 0) == s
  {
  }

  lemma LaterNumber(s: Scan, r: Ref)
    requires s.Known() && r in s.ctl.models && (s.ctl.models[r].e164.Some? ==> s.ctl.models[r].e164.value !in s.byE164)
    ensures var e164 := s.ctl.models[r].e164;
            ScanE164(s, r) == if e164.Some? then s.(byE164 := s.byE164[e164.value := r]) else s
  {
  }

  lemma LaterService(s: Scan, r: Ref)
    requires s.Known() && r in s.ctl.models
    requires forall v | HasServiceId(s.ctl.models[r], v) :: v !in s.byServiceId
    ensures var t := ScanPni(ScanServiceId(s, r), r);
            && t == s.(byServiceId := t.byServiceId)
            && forall v | HasServiceId(s.ctl.models[r], v) :: v in t.byServiceId && t.byServiceId[v] == r
  {
  }

  lemma LaterGroup(s: Scan, r: Ref)
    requires s.Known() && r in s.ctl.models && (V2Id(s.ctl.models[r]).Some? ==> V2Id(s.ctl.models[r]).value !in s.byGroupV2Id)
    ensures ScanGroup(s, r).ctl == s.ctl && ScanGroup(s, r).byServiceId == s.byServiceId && ScanGroup(s, r).byE164 == s.byE164
  {
  }

  /** The scan has met none of the identifiers of `r`. */
  ghost predicate Unmet(s: Scan, r: Ref) {
    && s.Known() && r in s.ctl.models
    && (forall v | HasServiceId(s.ctl.models[r], v) :: v !in s.byServiceId)
    && (s.ctl.models[r].e164.Some? ==> s.ctl.models[r].e164.value !in s.byE164)
    && (V2Id(s.ctl.models[r]).Some? ==> V2Id(s.ctl.models[r]).value !in s.byGroupV2Id)
  }

  lemma UnmetVisited(s: Scan, r: Ref)
    requires Unmet(s, r)
    ensures var t := Visit(s, r);
            && t.ctl == s.ctl
            && (forall v | HasServiceId(s.ctl.models[r], v) :: v in t.byServiceId && t.byServiceId[v] == r)
            && (s.ctl.models[r].e164.Some? ==>
                  s.ctl.models[r].e164.value in t.byE164 && t.byE164[s.ctl.models[r].e164.value] == r)
  {
    hide ScanServiceId, ScanPni, ScanE164, ScanGroup, HasServiceId, V2Id;
    LaterService(s, r);
    var s2 := ScanPni(ScanServiceId(s, r), r);
    LaterNumber(s2, r);
    LaterGroup(ScanE164(s2, r), r);
  }

  // ---------- a conversation without conflicts ----------

  lemma AloneIsUnmet(s: Scan, c: Controller, x: Ref)
    requires Tied(s, c) && InNoConflict(c, x) && NotYet(s, x) && s.ctl.models[x] == c.models[x]
    ensures Unmet(s, x)
  {
  }

  lemma AloneIsApart(c: Controller, x: Ref, r: Ref)
    requires InNoConflict(c, x) && r in c.list && r != x
    ensures Apart(c, x, r)
  {
  }

  lemma {:induction false} ScanSpares(s: Scan, c: Controller, x: Ref, i: nat)
    requires Halfway(s, c.list, i) && Tied(s, c) && InNoConflict(c, x)
    requires x in s.ctl.list && x in c.models && x in s.ctl.models && s.ctl.models[x] == c.models[x]
    ensures s.Known()
    ensures var d := ScanDown(s, i).ctl; x in d.list && x in d.models && d.models[x] == c.models[x]
    decreases i
  {
    hide Tied, InNoConflict, Visit, ScanInv, BestKept, ScanDown, NotYet, Apart;
    if i == 0 {
      ScanIsOver(s);
    } else {
      var r := c.list[i - 1];
      RoundBegins(s, c, i);
      if r == x {
        AloneIsUnmet(s, c, x);
        UnmetVisited(s, x);
      } else {
        AloneIsApart(c, x, r);
        VisitAside(s, c, x, r);
      }
      ScanSpares(Visit(s, r), c, x, i - 1);
    }
  }

  /** A conversation without conflicts is still there after the scan, with all its attributes. */
  lemma WithoutConflictSurvives(c: Controller, x: Ref)
    requires ScanStart(c) && InNoConflict(c, x)
    ensures var d := ScanDown(Scan(c, map[], map[], map[]), |c.list|).ctl;
            x in d.list && x in d.models && x in c.models && d.models[x] == c.models[x]
  {
    hide InNoConflict, ScanDown, Halfway, IdsAgree, KindsApart;
    InNoConflictListed(c, x);
    StartIsHalfway(c);
    ScanSpares(Scan(c, map[], map[], map[]), c, x, |c.list|);
  }

  lemma InNoConflictListed(c: Controller, x: Ref)
    requires InNoConflict(c, x)
    ensures x in c.list && x in c.models
  {
  }

  // ---------- what a scan comes to ----------

  ghost predicate ConflictFree(d: Controller) {
    && (forall q | q in d.list :: q in d.models)
    && forall q, r | q in d.list && r in d.list && q != r :: !Conflict(d.models[q], d.models[r])
  }

  ghost predicate HasGroup(c: Controller, g: Ident) {
    exists q | q in c.list && q in c.models :: V2Id(c.models[q]) == Some(g)
  }

  ghost predicate OneGroupEach(c: Controller, d: Controller) {
    forall g | HasGroup(c, g) :: exists r :: SoleSurvivor(d, c.list, r, g)
  }

  ghost predicate Survives(c: Controller, d: Controller, x: Ref) {
    x in d.list && x in d.models && x in c.models && d.models[x] == c.models[x]
  }

  ghost predicate UninvolvedSurvive(c: Controller, d: Controller) {
    forall x | InNoConflict(c, x) :: Survives(c, d, x)
  }

  lemma ScanComesTo(c: Controller)
    requires ScanStart(c)
    ensures var d := ScanDown(Scan(c, map[], map[], map[]), |c.list|).ctl;
            ConflictFree(d) && OneGroupEach(c, d) && UninvolvedSurvive(c, d)
  {
    hide ScanStart, ScanDown, Conflict, InNoConflict, SoleSurvivor;
    var d := ScanDown(Scan(c, map[], map[], map[]), |c.list|).ctl;
    NoConflictsRemain(c);
    forall g | HasGroup(c, g) ensures exists r :: SoleSurvivor(d, c.list, r, g) { OneGroupRemains(c, g); }
    forall x | InNoConflict(c, x) ensures Survives(c, d, x) { WithoutConflictSurvives(c, x); }
  }
}
