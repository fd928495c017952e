/** Which of two conflicting contacts the scan keeps, on the order of the list and their attributes alone. */
module ConflictPairs {
  import opened Options
  import opened Conversations
  import opened ConversationMerge
  import opened ConflictScan
  import opened ConflictSurvivors

  // ---------- the two rounds that do ----------

  /** Two private conversations of the list, `a` before `b`, that share identifiers with nobody else. */
  ghost predicate IsPair(c: Controller, a: Ref, b: Ref) {
    && a != b && a in c.list && b in c.list && (forall q | q in c.list :: q in c.models)
    && c.models[a].group.None? && c.models[b].group.None?
    && forall q | q in c.list && q != a && q != b ::
         !Conflict(c.models[a], c.models[q]) && !Conflict(c.models[b], c.models[q])
  }

  /** Neither has been touched so far. */
  ghost predicate Untouched(s: Scan, c: Controller, a: Ref, b: Ref) {
    && Tied(s, c) && a in s.ctl.list && b in s.ctl.list && a in c.models && b in c.models
    && s.ctl.models[a] == c.models[a] && s.ctl.models[b] == c.models[b]
  }

  /** The scan's lookups lead to `b` for all its identifiers. */
  ghost predicate Entered(s: Scan, c: Controller, b: Ref) {
    && b in c.models
    && (forall v | HasServiceId(c.models[b], v) :: v in s.byServiceId && s.byServiceId[v] == b)
    && (forall v | c.models[b].e164 == Some(v) :: v in s.byE164 && s.byE164[v] == b)
  }

  /** Entries for an identifier of one of the two lead to the other. */
  lemma EntryOfPair(s: Scan, c: Controller, a: Ref, b: Ref, x: Ref, v: Ident)
    requires Tied(s, c) && IsPair(c, a, b) && (x == a || x == b) && NotYet(s, x)
    ensures var other := if x == a then b else a;
            && (HasServiceId(c.models[x], v) && v in s.byServiceId ==>
                  s.byServiceId[v] == other && HasServiceId(c.models[other], v))
            && (c.models[x].e164 == Some(v) && v in s.byE164 ==> s.byE164[v] == other && c.models[other].e164 == Some(v))
  {
  }

  lemma LaterIsUnmet(s: Scan, c: Controller, a: Ref, b: Ref)
    requires Untouched(s, c, a, b) && IsPair(c, a, b) && NotYet(s, a) && NotYet(s, b)
    ensures Unmet(s, b)
  {
  }

  /** The later one of the list comes first, and is entered. */
  lemma LaterVisited(s: Scan, c: Controller, a: Ref, b: Ref)
    requires Untouched(s, c, a, b) && IsPair(c, a, b) && NotYet(s, a) && NotYet(s, b)
    ensures s.Known() && b in s.ctl.models
    ensures var t := Visit(s, b); t.ctl == s.ctl && Entered(t, c, b)
  {
    hide Tied, IsPair, Visit, NotYet;
    LaterIsUnmet(s, c, a, b);
    UnmetVisited(s, b);
  }

  lemma PrivateSkipsGroups(s: Scan, r: Ref)
    requires s.Known() && r in s.ctl.models && s.ctl.models[r].group.None?
    ensures ScanGroup(s, r) == s
  {
  }

  lemma Lonely(s: Scan, c: Controller, a: Ref, b: Ref)
    requires IsPair(c, a, b) && NotYet(s, a)
    ensures c.models[b].group.None? && c.models[a].group.None? && a != b
    ensures forall v | v in s.byServiceId :: s.byServiceId[v] != a
    ensures forall v | v in s.byE164 :: s.byE164[v] != a
  {
  }

  /** What becomes of the two. */
  ghost predicate PairEnds(c: Controller, a: Ref, b: Ref, d: Controller) {
    && a in c.models && b in c.models && a in d.models && b in d.models
    && var A, B := c.models[a], c.models[b];
       var service := A.serviceId.Some? && (B.serviceId == A.serviceId || B.pni == A.serviceId);
       var pni := A.pni.Some? && (B.serviceId == A.pni || B.pni == A.pni);
       var number := A.e164.Some? && B.e164 == A.e164;
       && (a in d.list <==> !(service && A.e164.None?) && !(number && A.serviceId.None?))
       && (b in d.list <==>
             !pni && !(service && A.e164.Some?) && !(number && A.serviceId.Some? && B.serviceId.None?))
       && d.models[a] == A
       && d.models[b] == if number && A.serviceId.Some? && B.serviceId.Some? && A.serviceId != B.serviceId
                         then B.(e164 := None) else B
  }

  predicate SharesService(A: Attrs, B: Attrs) { A.serviceId.Some? && HasServiceId(B, A.serviceId.value) }

  predicate SharesPni(A: Attrs, B: Attrs) { A.pni.Some? && HasServiceId(B, A.pni.value) }

  /** The two in the middle of the round of `a`. */
  ghost predicate Amid(s: Scan, c: Controller, a: Ref, b: Ref, aStays: bool, bStays: bool) {
    && s.Known() && IdsAgree(s.ctl) && a in s.ctl.models && b in s.ctl.models && a in c.models && b in c.models && a != b
    && s.ctl.models[a] == c.models[a] && s.ctl.models[b] == c.models[b] && c.models[a].group.None? && c.models[b].group.None?
    && (a in s.ctl.list <==> aStays) && (b in s.ctl.list <==> bStays)
  }

  lemma CombineAmid(s: Scan, c: Controller, a: Ref, b: Ref, aStays: bool, bStays: bool)
    requires Amid(s, c, a, b, aStays, bStays)
    ensures Amid(s.(ctl := Combine(s.ctl, a, b)), c, a, b, aStays, false)
    ensures Amid(s.(ctl := Combine(s.ctl, b, a)), c, a, b, false, bStays)
  {
    hide IdsAgree, Combine;
    CombineRemoves(s.ctl, a, b);
    CombineRemoves(s.ctl, b, a);
  }

  lemma AmidService(s: Scan, c: Controller, a: Ref, b: Ref)
    requires Amid(s, c, a, b, true, true) && Tied(s, c) && IsPair(c, a, b) && NotYet(s, a) && Entered(s, c, b)
    ensures var A, B, t := c.models[a], c.models[b], ScanServiceId(s, a);
            && Amid(t, c, a, b, !(SharesService(A, B) && A.e164.None?), !(SharesService(A, B) && A.e164.Some?))
            && t.byE164 == s.byE164
            && (A.pni.Some? ==>
                  var p := A.pni.value;
                  if A.serviceId == A.pni && !(SharesService(A, B) && A.e164.None?)
                  then p in t.byServiceId && t.byServiceId[p] == a
                  else p in t.byServiceId <==> SharesPni(A, B))
            && (A.pni.Some? && A.pni.value in t.byServiceId ==> t.byServiceId[A.pni.value] == a || t.byServiceId[A.pni.value] == b)
            && (SharesPni(A, B) && !(A.serviceId == A.pni && A.e164.Some?) ==> t.byServiceId[A.pni.value] == b)
  {
    hide Tied, IsPair, Combine, IdsAgree;
    CombineAmid(s, c, a, b, true, true);
    var A := c.models[a];
    if A.serviceId.Some? { EntryOfPair(s, c, a, b, a, A.serviceId.value); }
    if A.pni.Some? { EntryOfPair(s, c, a, b, a, A.pni.value); }
  }

  lemma AmidPni(s: Scan, t: Scan, c: Controller, a: Ref, b: Ref)
    requires Amid(s, c, a, b, true, true) && Tied(s, c) && IsPair(c, a, b) && NotYet(s, a) && Entered(s, c, b)
    requires t == ScanServiceId(s, a)
    ensures var A, B, u := c.models[a], c.models[b], ScanPni(t, a);
            && Amid(u, c, a, b, !(SharesService(A, B) && A.e164.None?),
                    !(SharesService(A, B) && A.e164.Some?) && !SharesPni(A, B))
            && u.byE164 == s.byE164
  {
    hide Tied, IsPair, Combine, IdsAgree, NotYet, Entered, ScanServiceId;
    var A, B := c.models[a], c.models[b];
    AmidService(s, c, a, b);
    CombineAmid(t, c, a, b, !(SharesService(A, B) && A.e164.None?), !(SharesService(A, B) && A.e164.Some?));
  }

  lemma AmidNumber(s: Scan, c: Controller, a: Ref, b: Ref, aStays: bool, bStays: bool)
    requires Amid(s, c, a, b, aStays, bStays)
    requires c.models[a].e164.Some? ==>
               var n := c.models[a].e164.value;
               (n in s.byE164 <==> c.models[b].e164 == Some(n)) && (n in s.byE164 ==> s.byE164[n] == b)
    ensures var A, B, d := c.models[a], c.models[b], ScanE164(s, a).ctl;
            var number := A.e164.Some? && B.e164 == A.e164;
            var splits := number && A.serviceId.Some? && B.serviceId.Some? && A.serviceId != B.serviceId;
            && a in d.models && b in d.models
            && (a in d.list <==> aStays && !(number && A.serviceId.None?))
            && (b in d.list <==> bStays && !(number && A.serviceId.Some? && !splits))
            && d.models[a] == A && d.models[b] == if splits then B.(e164 := None) else B
  {
    hide Combine, IdsAgree;
    CombineAmid(s, c, a, b, aStays, bStays);
  }

  lemma EarlierVisited(s: Scan, c: Controller, a: Ref, b: Ref)
    requires Untouched(s, c, a, b) && IsPair(c, a, b) && IdsAgree(s.ctl) && NotYet(s, a) && Entered(s, c, b)
    ensures s.Known() && a in s.ctl.models && PairEnds(c, a, b, Visit(s, a).ctl)
  {
    hide Tied, IsPair, IdsAgree, ScanServiceId, ScanPni, ScanE164, NotYet;
    TiedKnows(s, c);
    Lonely(s, c, a, b);
    var A, B := c.models[a], c.models[b];
    var s1 := ScanServiceId(s, a);
    var s2 := ScanPni(s1, a);
    AmidPni(s, s1, c, a, b);
    if A.e164.Some? { EntryOfPair(s, c, a, b, a, A.e164.value); }
    AmidNumber(s2, c, a, b, !(SharesService(A, B) && A.e164.None?),
               !(SharesService(A, B) && A.e164.Some?) && !SharesPni(A, B));
    E164KeepsGroup(s2, a);
    PrivateSkipsGroups(ScanE164(s2, a), a);
  }

  lemma E164KeepsGroup(s: Scan, r: Ref)
    requires s.Known() && r in s.ctl.models
    ensures ScanE164(s, r).ctl.models[r].group == s.ctl.models[r].group
  {
  }

  // ---------- the whole scan ----------

  lemma AsideUntouched(s: Scan, t: Scan, c: Controller, a: Ref, b: Ref)
    requires Untouched(s, c, a, b) && Tied(t, c) && Aside(s, t, c, a) && Aside(s, t, c, b)
    ensures Untouched(t, c, a, b) && (Entered(s, c, b) ==> Entered(t, c, b))
  {
    hide Tied;
  }

  lemma AsideEnds(s: Scan, t: Scan, c: Controller, a: Ref, b: Ref)
    requires PairEnds(c, a, b, s.ctl) && Aside(s, t, c, a) && Aside(s, t, c, b)
    ensures PairEnds(c, a, b, t.ctl)
  {
  }

  lemma OthersApart(c: Controller, a: Ref, b: Ref, r: Ref)
    requires IsPair(c, a, b) && r in c.list && r != a && r != b
    ensures Apart(c, a, r) && Apart(c, b, r)
  {
  }

  lemma OthersStayAside(s: Scan, c: Controller, a: Ref, b: Ref, r: Ref)
    requires Tied(s, c) && IsPair(c, a, b) && r in c.list && r != a && r != b
    ensures s.Known() && r in s.ctl.models && Aside(s, Visit(s, r), c, a) && Aside(s, Visit(s, r), c, b)
  {
    hide Tied, IsPair, Visit, Aside, Apart;
    OthersApart(c, a, b, r);
    VisitAside(s, c, a, r);
    VisitAside(s, c, b, r);
  }

  /** `a` and `b` are the conversations at `x` and `y`. */
  ghost predicate At(c: Controller, x: nat, y: nat, a: Ref, b: Ref) {
    x < y < |c.list| && c.list[x] == a && c.list[y] == b && IsPair(c, a, b)
  }

  lemma OnlyAt(c: Controller, x: nat, y: nat, a: Ref, b: Ref, k: nat)
    requires At(c, x, y, a, b) && Distinct(c.list) && k < |c.list|
    ensures (c.list[k] == a <==> k == x) && (c.list[k] == b <==> k == y)
  {
  }

  lemma {:induction false} AfterBoth(s: Scan, c: Controller, i: nat, x: nat, y: nat, a: Ref, b: Ref)
    requires Halfway(s, c.list, i) && At(c, x, y, a, b) && i <= x && Tied(s, c) && PairEnds(c, a, b, s.ctl)
    ensures s.Known() && PairEnds(c, a, b, ScanDown(s, i).ctl)
    decreases i
  {
    hide Tied, IsPair, Visit, BestKept, ScanInv, PairEnds, Aside, NotYet, ScanDown;
    if i == 0 {
      ScanIsOver(s);
    } else {
      RoundBegins(s, c, i);
      OnlyAt(c, x, y, a, b, i - 1);
      var t := Visit(s, c.list[i - 1]);
      OthersStayAside(s, c, a, b, c.list[i - 1]);
      AsideEnds(s, t, c, a, b);
      AfterBoth(t, c, i - 1, x, y, a, b);
    }
  }

  lemma {:induction false} BetweenThem(s: Scan, c: Controller, i: nat, x: nat, y: nat, a: Ref, b: Ref)
    requires Halfway(s, c.list, i) && At(c, x, y, a, b) && x < i <= y && Untouched(s, c, a, b) && Entered(s, c, b)
    ensures s.Known() && PairEnds(c, a, b, ScanDown(s, i).ctl)
    decreases i
  {
    hide Tied, IsPair, Visit, BestKept, ScanInv, PairEnds, Aside, NotYet, ScanDown, Entered;
    RoundBegins(s, c, i);
    OnlyAt(c, x, y, a, b, i - 1);
    var t := Visit(s, c.list[i - 1]);
    if i - 1 == x {
      EarlierVisited(s, c, a, b);
      AfterBoth(t, c, i - 1, x, y, a, b);
    } else {
      OthersStayAside(s, c, a, b, c.list[i - 1]);
      AsideUntouched(s, t, c, a, b);
      BetweenThem(t, c, i - 1, x, y, a, b);
    }
  }

  lemma {:induction false} BeforeBoth(s: Scan, c: Controller, i: nat, x: nat, y: nat, a: Ref, b: Ref)
    requires Halfway(s, c.list, i) && At(c, x, y, a, b) && y < i && Untouched(s, c, a, b)
    ensures s.Known() && PairEnds(c, a, b, ScanDown(s, i).ctl)
    decreases i
  {
    hide Tied, IsPair, Visit, BestKept, ScanInv, PairEnds, Aside, NotYet, ScanDown, Entered;
    RoundBegins(s, c, i);
    OnlyAt(c, x, y, a, b, i - 1);
    var t := Visit(s, c.list[i - 1]);
    if i - 1 == y {
      LaterVisited(s, c, a, b);
      BetweenThem(t, c, i - 1, x, y, a, b);
    } else {
      OthersStayAside(s, c, a, b, c.list[i - 1]);
      AsideUntouched(s, t, c, a, b);
      BeforeBoth(t, c, i - 1, x, y, a, b);
    }
  }

  /** The scan decides between two contacts that conflict with each other at most, wherever they are in the
      list and whatever else is in it. */
  lemma PairDecided(c: Controller, x: nat, y: nat)
    requires ScanStart(c) && x < y < |c.list| && IsPair(c, c.list[x], c.list[y])
    ensures PairEnds(c, c.list[x], c.list[y], ScanDown(Scan(c, map[], map[], map[]), |c.list|).ctl)
  {
    hide IdsAgree, KindsApart, IsPair, PairEnds;
    StartIsHalfway(c);
    StartIsUntouched(c, c.list[x], c.list[y]);
    BeforeBoth(Scan(c, map[], map[], map[]), c, |c.list|, x, y, c.list[x], c.list[y]);
  }

  lemma StartIsUntouched(c: Controller, a: Ref, b: Ref)
    requires IsPair(c, a, b)
    ensures Untouched(Scan(c, map[], map[], map[]), c, a, b)
  {
  }

  // ---------- what that means ----------

  ghost predicate Kept(c: Controller, q: Ref) {
    q in ScanDown(Scan(c, map[], map[], map[]), |c.list|).ctl.list
  }

  /** With the same service id and no PNI in common, the earlier one stays if and only if it has a phone
      number, and then the later one goes. */
  lemma SameServiceId(c: Controller, x: nat, y: nat)
    requires ScanStart(c) && x < y < |c.list| && IsPair(c, c.list[x], c.list[y])
    requires var A, B := c.models[c.list[x]], c.models[c.list[y]];
             A.serviceId.Some? && A.serviceId == B.serviceId && !SharesPni(A, B)
    ensures Kept(c, c.list[x]) <==> c.models[c.list[x]].e164.Some?
    ensures Kept(c, c.list[y]) <==> c.models[c.list[x]].e164.None?
  {
    hide IdsAgree, KindsApart, IsPair, ScanDown;
    PairDecided(c, x, y);
  }

  /** With a phone number in common and nothing else: different service ids keep both, and the later one
      loses the number; otherwise the earlier one stays if and only if it has a service id. */
  lemma SameNumber(c: Controller, x: nat, y: nat)
    requires ScanStart(c) && x < y < |c.list| && IsPair(c, c.list[x], c.list[y])
    requires var A, B := c.models[c.list[x]], c.models[c.list[y]];
             A.e164.Some? && A.e164 == B.e164 && !SharesService(A, B) && !SharesPni(A, B)
    ensures var A, B := c.models[c.list[x]], c.models[c.list[y]];
            var d := ScanDown(Scan(c, map[], map[], map[]), |c.list|).ctl;
            if A.serviceId.Some? && B.serviceId.Some? then
              Kept(c, c.list[x]) && Kept(c, c.list[y]) && c.list[x] in d.models && c.list[y] in d.models
              && d.models[c.list[x]] == A && d.models[c.list[y]] == B.(e164 := None)
            else (Kept(c, c.list[x]) <==> A.serviceId.Some?) && (Kept(c, c.list[y]) <==> A.serviceId.None?)
  {
    hide IdsAgree, KindsApart, IsPair, ScanDown;
    PairDecided(c, x, y);
  }

  /** With a PNI in common the later one goes. The earlier one stays unless another part of its round takes it
      out as well, and then both are gone: it has no phone number and shares its service id too, or it has
      no service id and shares its phone number too. No other two lose both. */
  lemma BothGoExactly(c: Controller, x: nat, y: nat)
    requires ScanStart(c) && x < y < |c.list| && IsPair(c, c.list[x], c.list[y])
    ensures var A, B := c.models[c.list[x]], c.models[c.list[y]];
            && (!Kept(c, c.list[x]) && !Kept(c, c.list[y]) <==>
                  SharesPni(A, B) && ((A.e164.None? && SharesService(A, B))
                                      || (A.serviceId.None? && A.e164.Some? && A.e164 == B.e164)))
            && (SharesPni(A, B) ==> !Kept(c, c.list[y]))
            && (Kept(c, c.list[x]) && Kept(c, c.list[y]) <==>
                  !SharesPni(A, B) && !SharesService(A, B)
                  && (A.e164.Some? && A.e164 == B.e164 ==> A.serviceId.Some? && B.serviceId.Some?))
  {
    hide IdsAgree, KindsApart, IsPair, ScanDown;
    PairDecided(c, x, y);
  }

  /** Two entries of one contact, with the same ACI and PNI and no phone number. */
  const TWICE := Controller([0, 1], map[0 := Attrs(Some(Aci(1)), None, Some(Pni(1)), None),
                                        1 := Attrs(Some(Aci(1)), None, Some(Pni(1)), None)],
                            map[], map[Aci(1) := 0], map[Pni(1) := 0], map[], map[Local(0) := 0, Local(1) := 1])

  lemma BothGoHappens()
    ensures ScanStart(TWICE) && !Kept(TWICE, 0) && !Kept(TWICE, 1)
  {
    hide ScanDown;
    assert TWICE.models[0] == TWICE.models[1] == Attrs(Some(Aci(1)), None, Some(Pni(1)), None);
    BothGoExactly(TWICE, 0, 1);
  }

  // ---------- groups ----------

  /** The group has the V2 id, its own or the one derived from its V1 id. */
  predicate IsGroupOf(a: Attrs, g: Ident) {
    a.group.Some? && if a.group.value.isV2 then a.group.value.groupId == g else a.group.value.derivedV2Id == g
  }

  /** The last V2 group with an id stays, or the last group when there are V1 groups only, and then no
      other group with the id is left. */
  lemma LastGroupStays(c: Controller, g: Ident, j: nat)
    requires ScanStart(c) && j < |c.list| && IsGroupOf(c.models[c.list[j]], g)
    requires forall k :: j < k < |c.list| ==>
               !IsGroupOf(c.models[c.list[k]], g) || (c.models[c.list[j]].group.value.isV2 && !c.models[c.list[k]].group.value.isV2)
    requires !c.models[c.list[j]].group.value.isV2 ==>
               forall k :: 0 <= k < |c.list| && IsGroupOf(c.models[c.list[k]], g) ==> !c.models[c.list[k]].group.value.isV2
    ensures Kept(c, c.list[j])
    ensures forall q | q in c.list && IsGroupOf(c.models[q], g) && Kept(c, q) :: q == c.list[j]
  {
    hide ScanDown, KindsApart;
    OneGroupRemains(c, g);
    var d := ScanDown(Scan(c, map[], map[], map[]), |c.list|).ctl;
    var r :| SoleSurvivor(d, c.list, r, g);
    assert V2Id(d.models[c.list[j]]) == Some(g);
    assert r == c.list[j];
  }
}
