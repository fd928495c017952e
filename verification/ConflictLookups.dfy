/** The lookups of the controller after a scan: entries go with the conversations that are taken out, and
    no others. */
module ConflictLookups {
  import opened Options
  import opened Conversations
  import opened ConversationMerge
  import opened ConflictScan
  import opened ConflictSurvivors
  import opened ConflictPairs

  type Held = map<Ref, Option<Ident>>

  /** Entries never appear or change, and one is gone if and only if its conversation is taken out and had
      the identifier. */
  ghost predicate Cut(before: Lookup, after: Lookup, out: set<Ref>, held: Held) {
    && (forall id | id in after :: id in before && after[id] == before[id])
    && (forall id | id in before ::
          id !in after <==> before[id] in out && before[id] in held && held[before[id]] == Some(id))
  }

  /** The same for phone numbers, but the entry of a conversation that lost its number first stays. */
  ghost predicate NumbersCut(before: Lookup, after: Lookup, out: set<Ref>, held: Held, still: Held) {
    && (forall id | id in after :: id in before && after[id] == before[id])
    && (forall id | id in before ::
          && (id !in after ==> before[id] in out && before[id] in held && held[before[id]] == Some(id))
          && (before[id] in out && before[id] in still && still[before[id]] == Some(id) ==> id !in after))
  }

  function HeldBy(models: Models, key: Key): Held { map r | r in models :: Slot(models[r], key) }

  function HeldByGroups(models: Models): Held { map r | r in models :: models[r].GroupId() }

  function TakenOut(c: Controller, d: Controller): set<Ref> { set r | r in c.list && r !in d.list }

  /** The lookups of `d`, seen from `c`. */
  ghost predicate Trimmed(c: Controller, d: Controller) {
    var out := TakenOut(c, d);
    && Cut(c.byServiceId, d.byServiceId, out, HeldBy(c.models, ServiceId))
    && Cut(c.byPni, d.byPni, out, HeldBy(c.models, PniKey))
    && Cut(c.byGroupId, d.byGroupId, out, HeldByGroups(c.models))
    && NumbersCut(c.byE164, d.byE164, out, HeldBy(c.models, E164), HeldBy(d.models, E164))
  }

  // ---------- one conversation taken out ----------

  lemma CutMore(before: Lookup, after: Lookup, out: set<Ref>, held: Held, r: Ref)
    requires Cut(before, after, out, held) && r in held && r !in out
    ensures Cut(before, DropEntry(after, held[r], r), out + {r}, held)
  {
  }

  lemma NumbersCutMore(before: Lookup, after: Lookup, out: set<Ref>, held: Held, still: Held, r: Ref)
    requires NumbersCut(before, after, out, held, still) && r in held && r in still && r !in out
    requires still[r].None? || still[r] == held[r]
    ensures NumbersCut(before, DropEntry(after, still[r], r), out + {r}, held, still)
  {
  }

  lemma NumberForgotten(before: Lookup, after: Lookup, out: set<Ref>, held: Held, still: Held, r: Ref)
    requires NumbersCut(before, after, out, held, still) && r in still
    ensures NumbersCut(before, after, out, held, still[r := None])
  {
  }

  lemma RemovalTrims(c: Controller, d: Controller, r: Ref)
    requires Trimmed(c, d) && r in d.models && r in c.models && r in d.list && r in c.list
    requires d.models[r] == c.models[r] || d.models[r] == c.models[r].(e164 := None)
    ensures Trimmed(c, RemoveConversation(d, r))
  {
    hide Cut, NumbersCut, DropEntry;
    var out := TakenOut(c, d);
    assert TakenOut(c, RemoveConversation(d, r)) == out + {r};
    CutMore(c.byServiceId, d.byServiceId, out, HeldBy(c.models, ServiceId), r);
    CutMore(c.byPni, d.byPni, out, HeldBy(c.models, PniKey), r);
    CutMore(c.byGroupId, d.byGroupId, out, HeldByGroups(c.models), r);
    NumbersCutMore(c.byE164, d.byE164, out, HeldBy(c.models, E164), HeldBy(d.models, E164), r);
  }

  lemma SplitTrims(c: Controller, d: Controller, r: Ref)
    requires Trimmed(c, d) && r in d.models
    ensures Trimmed(c, d.(models := d.models[r := d.models[r].(e164 := None)]))
  {
    hide Cut, NumbersCut;
    var after := d.models[r := d.models[r].(e164 := None)];
    assert HeldBy(after, E164) == HeldBy(d.models, E164)[r := None];
    assert TakenOut(c, d.(models := after)) == TakenOut(c, d);
    NumberForgotten(c.byE164, d.byE164, TakenOut(c, d), HeldBy(c.models, E164), HeldBy(d.models, E164), r);
  }

  // ---------- a round ----------

  ghost predicate InOrder(c: Controller, d: Controller) {
    && IdsAgree(d) && Trimmed(c, d) && (forall r | r in d.list :: r in c.list) && d.models.Keys == c.models.Keys
    && forall q | q in c.models :: d.models[q] == c.models[q] || d.models[q] == c.models[q].(e164 := None)
  }

  lemma CombineInOrder(c: Controller, d: Controller, current: Ref, obsolete: Ref)
    requires InOrder(c, d) && current in d.models && obsolete in d.models
    ensures InOrder(c, Combine(d, current, obsolete))
  {
    hide IdsAgree, Trimmed, RemoveConversation;
    InListOnly(d, obsolete);
    if Combine(d, current, obsolete) != d {
      CombineRemoves(d, current, obsolete);
      RemovalTrims(c, d, obsolete);
    }
  }

  lemma InListOnly(c: Controller, r: Ref)
    requires IdsAgree(c)
    ensures c.Get(Local(r)).Some? ==> r in c.list
  {
  }

  lemma SplitInOrder(c: Controller, d: Controller, r: Ref)
    requires InOrder(c, d) && r in d.models
    ensures InOrder(c, d.(models := d.models[r := d.models[r].(e164 := None)]))
  {
    hide Trimmed;
    SplitTrims(c, d, r);
  }

  lemma VisitInOrder(c: Controller, s: Scan, r: Ref)
    requires s.Known() && r in s.ctl.models && InOrder(c, s.ctl)
    ensures InOrder(c, Visit(s, r).ctl)
  {
    hide InOrder, Combine, ScanServiceId, ScanPni, ScanE164, ScanGroup, SplitsHere;
    ServiceInOrder(c, s, r);
    PniInOrder(c, ScanServiceId(s, r), r);
    var s2 := ScanPni(ScanServiceId(s, r), r);
    E164InOrder(c, s2, r);
    GroupInOrder(c, ScanE164(s2, r), r);
  }

  lemma ServiceInOrder(c: Controller, s: Scan, r: Ref)
    requires s.Known() && r in s.ctl.models && InOrder(c, s.ctl)
    ensures InOrder(c, ScanServiceId(s, r).ctl)
  {
    hide InOrder, Combine;
    var v := s.ctl.models[r].serviceId;
    if v.Some? && v.value in s.byServiceId {
      CombineInOrder(c, s.ctl, r, s.byServiceId[v.value]);
      CombineInOrder(c, s.ctl, s.byServiceId[v.value], r);
    }
  }

  lemma PniInOrder(c: Controller, s: Scan, r: Ref)
    requires s.Known() && r in s.ctl.models && InOrder(c, s.ctl)
    ensures InOrder(c, ScanPni(s, r).ctl)
  {
    hide InOrder, Combine;
    var v := s.ctl.models[r].pni;
    if v.Some? && v.value in s.byServiceId { CombineInOrder(c, s.ctl, r, s.byServiceId[v.value]); }
  }

  lemma E164InOrder(c: Controller, s: Scan, r: Ref)
    requires s.Known() && r in s.ctl.models && InOrder(c, s.ctl)
    ensures InOrder(c, ScanE164(s, r).ctl)
  {
    hide InOrder, Combine;
    var v := s.ctl.models[r].e164;
    if v.Some? && v.value in s.byE164 {
      SplitInOrder(c, s.ctl, s.byE164[v.value]);
      CombineInOrder(c, s.ctl, r, s.byE164[v.value]);
      CombineInOrder(c, s.ctl, s.byE164[v.value], r);
    }
  }

  lemma GroupInOrder(c: Controller, s: Scan, r: Ref)
    requires s.Known() && r in s.ctl.models && InOrder(c, s.ctl)
    ensures InOrder(c, ScanGroup(s, r).ctl)
  {
    hide InOrder, Combine, V2Id;
    var g := V2Id(s.ctl.models[r]);
    if g.Some? && g.value in s.byGroupV2Id {
      CombineInOrder(c, s.ctl, r, s.byGroupV2Id[g.value]);
      CombineInOrder(c, s.ctl, s.byGroupV2Id[g.value], r);
    }
  }

  // ---------- the whole scan ----------

  lemma {:induction false} ScanInOrder(c: Controller, s: Scan, i: nat)
    requires s.Known() && InOrder(c, s.ctl)
    ensures InOrder(c, ScanDown(s, i).ctl)
    decreases i
  {
    hide InOrder, Visit;
    if !(i == 0 || i > |s.ctl.list| || s.ctl.list[i - 1] !in s.ctl.models) {
      VisitInOrder(c, s, s.ctl.list[i - 1]);
      ScanInOrder(c, Visit(s, s.ctl.list[i - 1]), i - 1);
    }
  }

  lemma StartInOrder(c: Controller)
    requires IdsAgree(c)
    ensures InOrder(c, c)
  {
    assert TakenOut(c, c) == {};
  }

  /** The lookups are cut to what is left, by local id exactly to the list. */
  lemma ScanTrims(c: Controller)
    requires ScanStart(c)
    ensures var d := ScanDown(Scan(c, map[], map[], map[]), |c.list|).ctl;
            && Trimmed(c, d) && IdsAgree(d) && (forall r | r in d.list :: r in c.list)
  {
    hide ScanDown, Trimmed, IdsAgree;
    StartInOrder(c);
    ScanInOrder(c, Scan(c, map[], map[], map[]), |c.list|);
  }

  /** So service ids, PNIs and group ids that led to their holders still do, and none leads to a conversation
      that is not in the list. */
  lemma HoldersAreFound(c: Controller, key: Key, id: Ident)
    requires ScanStart(c) && key != E164 && id in c.Index(key)
    requires c.Index(key)[id] in c.list && Slot(c.models[c.Index(key)[id]], key) == Some(id)
    ensures var d := ScanDown(Scan(c, map[], map[], map[]), |c.list|).ctl;
            && (id in d.Index(key) <==> c.Index(key)[id] in d.list)
            && (id in d.Index(key) ==> d.Index(key)[id] == c.Index(key)[id])
  {
    hide ScanDown, KindsApart;
    ScanTrims(c);
  }

  /** When two contacts are told apart by their service ids, the entry of their phone number stays where it
      was: if it led to the later one, it now leads to a conversation without a number. */
  lemma NumberMayLeadAstray(c: Controller, x: nat, y: nat, n: Ident)
    requires ScanStart(c) && x < y < |c.list| && IsPair(c, c.list[x], c.list[y])
    requires var A, B := c.models[c.list[x]], c.models[c.list[y]];
             && A.e164 == Some(n) && B.e164 == Some(n) && A.serviceId.Some? && B.serviceId.Some?
             && !SharesService(A, B) && !SharesPni(A, B)
    requires n in c.byE164 && c.byE164[n] == c.list[y]
    ensures var d := ScanDown(Scan(c, map[], map[], map[]), |c.list|).ctl;
            && n in d.byE164 && d.byE164[n] == c.list[y] && c.list[y] in d.list && c.list[y] in d.models
            && d.models[c.list[y]].e164.None? && d.Get(n) == Some(c.list[y])
  {
    hide ScanDown, KindsApart, IdsAgree, Cut, IsPair;
    ScanTrims(c);
    SameNumber(c, x, y);
  }
}
