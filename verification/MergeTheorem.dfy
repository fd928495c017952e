/** What `maybeMergeContacts` leaves behind, for every well-formed controller and every choice of
    identifiers. */
module MergeTheorem {
  import opened Options
  import opened Conversations
  import opened ConversationMerge

  // ---------- after the service id and the phone number ----------

  predicate HasSlots(a: Attrs, aci: Option<Ident>, e164: Option<Ident>) {
    (aci.Some? ==> a.serviceId == aci) && (e164.Some? ==> a.e164 == e164)
  }

  /** The PNIs, and the service ids other than the new one, can only have been given up. */
  predicate Shrunk(was: Attrs, now: Attrs, aci: Option<Ident>) {
    && (now.pni == was.pni || now.pni.None?)
    && (|| now.serviceId == was.serviceId
        || (aci.Some? && now.serviceId == aci)
        || (now.serviceId.None? && now.pni.None?))
  }

  ghost predicate Frame(c: Controller, m: MergeState, newRef: Ref) {
    if newRef in m.ctl.models then m.ctl.list == c.list + [newRef] && m.ctl.models.Keys == c.models.Keys + {newRef}
    else m.ctl.list == c.list && m.ctl.models.Keys == c.models.Keys
  }

  ghost predicate TargetSettled(c: Controller, input: Input, newRef: Ref, m: MergeState)
    requires m.target.Some? && m.TargetKnown() && c.models.Keys <= m.ctl.models.Keys && FoundKnown(c, input)
  {
    var t, a, e := m.target.value, c.Find(input.aci), c.Find(input.e164);
    && m.unused == [] && (a.Some? || e.Some?)
    && HasSlots(m.ctl.models[t], input.aci, input.e164)
    && (if newRef in m.ctl.models then t == newRef && m.ctl.models[t].pni.None? && input.aci.Some?
        else t in c.models && (a == Some(t) || e == Some(t)))
    && (a.Some? ==> a.value == t)
    && (input.aci.None? ==> m.ctl == c)
    && m.merged == if e.Some? && e.value != t && m.ctl.models[e.value].IsEmpty() then [(t, e.value)] else []
  }

  ghost predicate TwoDone(c: Controller, input: Input, newRef: Ref, m: MergeState)
    requires FoundKnown(c, input)
  {
    && WellFormed(m.ctl) && m.TargetKnown() && Frame(c, m, newRef)
    && (forall q | q in c.models && c.Find(input.aci) != Some(q) && c.Find(input.e164) != Some(q) ::
          m.ctl.models[q] == c.models[q])
    && (forall q | q in c.models :: Shrunk(c.models[q], m.ctl.models[q], input.aci))
    && if m.target.None? then m == MergeState(c, None, Unmatched(c, input), []) && c.Find(input.aci).None?
                              && c.Find(input.e164).None?
       else TargetSettled(c, input, newRef, m)
  }

  // ---------- the changes in plain words ----------

  /** A phone number drives out the PNI, and a PNI is the service id of who has no other. */
  function Given(a: Attrs, item: Item): Attrs {
    match item.key
    case ServiceId => a.(serviceId := Some(item.value))
    case E164 => a.(e164 := Some(item.value), pni := None,
                    serviceId := if a.serviceId == a.pni then None else a.serviceId)
    case PniKey => a.(pni := Some(item.value),
                      serviceId := if a.serviceId.None? || a.serviceId == a.pni then Some(item.value) else a.serviceId)
  }

  lemma ChangedIsGiven(a: Attrs, item: Item)
    ensures Changed(a, ChangeOf(item.key, Some(item.value))) == Given(a, item)
  {
  }

  function Lost(a: Attrs, key: Key, pni: Option<Ident>): Attrs {
    match key
    case ServiceId => a.(serviceId := None)
    case E164 => a.(e164 := None, pni := None,
                    serviceId := if a.serviceId == a.pni || a.serviceId == pni then None else a.serviceId)
    case PniKey => a.(pni := None,
                      serviceId := if a.serviceId == a.pni || a.serviceId == pni then None else a.serviceId)
  }

  lemma ChangedIsLost(a: Attrs, key: Key, pni: Option<Ident>)
    ensures Changed(a, Loss(a, key, pni)) == Lost(a, key, pni)
  {
  }

  lemma GiveResult(c: Controller, r: Ref, item: Item)
    requires WellFormed(c) && r in c.models && Fits(item)
    requires forall q | q in c.models && q != r :: !c.models[q].Holds(item.value)
    ensures var d := Give(c, r, item);
            WellFormed(d) && d.list == c.list && d.models == c.models[r := Given(c.models[r], item)]
  {
    hide Indexed, Sound, Changed, Given;
    GiveKeepsWellFormed(c, r, item);
    ChangedIsGiven(c.models[r], item);
  }

  /** The whole effect of a match that is not the target. */
  lemma TakenOver(m: MergeState, item: Item, found: Ref, pni: Option<Ident>)
    requires WellFormed(m.ctl) && m.target.Some? && m.TargetKnown() && found in m.ctl.models && found != m.target.value
    requires Fits(item) && item.key != ServiceId && (item.key == PniKey ==> pni == Some(item.value))
    requires forall q | q in m.ctl.models && q != found && q != m.target.value :: !m.ctl.models[q].Holds(item.value)
    ensures var n, t := TakeOver(m, item, found, pni), m.target.value;
            var lost := Lost(m.ctl.models[found], item.key, pni);
            && WellFormed(n.ctl) && n.ctl.list == m.ctl.list && n.target == m.target && n.unused == m.unused
            && n.ctl.models == m.ctl.models[found := lost][t := Given(m.ctl.models[t], item)]
            && n.merged == if lost.IsEmpty() then m.merged + [(t, found)] else m.merged
  {
    hide Indexed, Sound, Changed, Given, Lost, Attrs.Holds;
    TakeOverResult(m, item, found, pni);
    ChangedIsLost(m.ctl.models[found], item.key, pni);
    ChangedIsGiven(m.ctl.models[m.target.value], item);
  }

  lemma FindExact(c: Controller, v: Option<Ident>)
    requires WellFormed(c) && (v.Some? ==> IsContactId(v.value))
    ensures var r := c.Find(v);
            && (r.Some? ==> r.value in c.models && c.models[r.value].WellTyped() && v.Some?
                            && c.models[r.value].Holds(v.value))
            && (v.Some? ==> forall q | q in c.models && r != Some(q) :: !c.models[q].Holds(v.value))
  {
    if v.Some? {
      GetExact(c, v.value);
    }
  }

  lemma AciDone(c: Controller, input: Input, newRef: Ref)
    requires WellFormed(c) && input.Valid() && FoundKnown(c, input) && newRef !in c.models
    ensures var m := AfterAci(c, input, newRef);
            && m.ctl == c && m.target == c.Find(input.aci) && m.merged == []
            && m.unused == (if input.aci.Some? && m.target.None? then [Item(ServiceId, input.aci.value)] else [])
  {
    hide WellFormed, Controller.Get;
  }

  /** The phone number is not given, or nobody has it. */
  lemma NoE164Match(c: Controller, input: Input, newRef: Ref)
    requires WellFormed(c) && input.Valid() && FoundKnown(c, input) && newRef !in c.models
    requires c.Find(input.e164).None?
    ensures TwoDone(c, input, newRef, AfterE164(c, input, newRef))
  {
    hide Indexed, Sound, Controller.Get, Changed, Attrs.WellTyped;
    AciDone(c, input, newRef);
    FindExact(c, input.aci);
    FindExact(c, input.e164);
    var a := c.Find(input.aci);
    if a.Some? {
      AciSlot(c.models[a.value], input.aci.value);
      if input.e164.Some? {
        GiveResult(c, a.value, Item(E164, input.e164.value));
      }
    }
  }

  lemma AciSlot(a: Attrs, v: Ident)
    requires a.WellTyped() && a.Holds(v)
    ensures v.Aci? ==> a.serviceId == Some(v)
    ensures v.Phone? ==> a.e164 == Some(v)
    ensures v.Pni? ==> a.pni == Some(v)
  {
  }

  /** The phone number is found. */
  ghost predicate E164Found(c: Controller, input: Input, newRef: Ref) {
    && WellFormed(c) && input.Valid() && FoundKnown(c, input) && newRef !in c.models && c.Find(input.e164).Some?
  }

  lemma E164MatchAlone(c: Controller, input: Input, newRef: Ref)
    requires E164Found(c, input, newRef) && (input.aci.None? || c.Find(input.aci) == c.Find(input.e164))
    ensures TwoDone(c, input, newRef, AfterE164(c, input, newRef))
  {
    hide Indexed, Sound, Controller.Get, Changed, Attrs.WellTyped;
    AciDone(c, input, newRef);
    FindExact(c, input.aci);
    FindExact(c, input.e164);
    var e := c.Find(input.e164).value;
    AciSlot(c.models[e], input.e164.value);
    if input.aci.Some? {
      AciSlot(c.models[e], input.aci.value);
    }
  }

  /** ... and the conversation found under the service id is the target. */
  lemma E164MatchAndTarget(c: Controller, input: Input, newRef: Ref)
    requires E164Found(c, input, newRef) && c.Find(input.aci).Some? && c.Find(input.aci) != c.Find(input.e164)
    ensures TwoDone(c, input, newRef, AfterE164(c, input, newRef))
  {
    hide Indexed, Sound, Controller.Get, Changed, Attrs.WellTyped, TakeOver;
    AciDone(c, input, newRef);
    FindExact(c, input.aci);
    FindExact(c, input.e164);
    AciSlot(c.models[c.Find(input.aci).value], input.aci.value);
    TakenOver(AfterAci(c, input, newRef), Item(E164, input.e164.value), c.Find(input.e164).value, input.pni);
  }

  /** ... but the service id is not, and goes to that conversation. */
  lemma E164MatchTakesAci(c: Controller, input: Input, newRef: Ref)
    requires E164Found(c, input, newRef) && input.aci.Some? && c.Find(input.aci).None?
    requires CanTake(c.models[c.Find(input.e164).value], Item(ServiceId, input.aci.value), input.pni)
    ensures TwoDone(c, input, newRef, AfterE164(c, input, newRef))
  {
    hide Indexed, Sound, Controller.Get, Changed, Attrs.WellTyped, GivenAll, UseUnused;
    AciDone(c, input, newRef);
    FindExact(c, input.e164);
    FindExact(c, input.aci);
    var e, unused := c.Find(input.e164).value, [Item(ServiceId, input.aci.value)];
    AciSlot(c.models[e], input.e164.value);
    UseUnusedResult(c, unused, e, input.pni, newRef);
    GivenOneByOne(c.models[e], unused);
  }

  /** ... and goes to a new conversation, which takes the phone number over. */
  lemma E164MatchNewAci(c: Controller, input: Input, newRef: Ref)
    requires E164Found(c, input, newRef) && input.aci.Some? && c.Find(input.aci).None?
    requires !CanTake(c.models[c.Find(input.e164).value], Item(ServiceId, input.aci.value), input.pni)
    ensures TwoDone(c, input, newRef, AfterE164(c, input, newRef))
  {
    hide Indexed, Sound, Controller.Get, Changed, Attrs.WellTyped, GivenAll, UseUnused, TakeOver;
    AciDone(c, input, newRef);
    FindExact(c, input.e164);
    FindExact(c, input.aci);
    var e, unused := c.Find(input.e164).value, [Item(ServiceId, input.aci.value)];
    UseUnusedResult(c, unused, e, input.pni, newRef);
    GivenOneByOne(NewAttrs(input.aci.value, None), unused);
    TakenOver(UseUnused(AfterAci(c, input, newRef), e, input.pni, newRef), Item(E164, input.e164.value), e, input.pni);
  }

  lemma E164Done(c: Controller, input: Input, newRef: Ref)
    requires WellFormed(c) && input.Valid() && FoundKnown(c, input) && newRef !in c.models
    ensures TwoDone(c, input, newRef, AfterE164(c, input, newRef))
  {
    hide Indexed, Sound, Controller.Get, AfterE164, TwoDone, CanTake;
    if c.Find(input.e164).None? {
      NoE164Match(c, input, newRef);
    } else if input.aci.None? || c.Find(input.aci) == c.Find(input.e164) {
      E164MatchAlone(c, input, newRef);
    } else if c.Find(input.aci).Some? {
      E164MatchAndTarget(c, input, newRef);
    } else if CanTake(c.models[c.Find(input.e164).value], Item(ServiceId, input.aci.value), input.pni) {
      E164MatchTakesAci(c, input, newRef);
    } else {
      E164MatchNewAci(c, input, newRef);
    }
  }

  // ---------- after the PNI ----------

  ghost predicate IsFound(c: Controller, input: Input, q: Ref) {
    c.Find(input.aci) == Some(q) || c.Find(input.e164) == Some(q) || c.Find(input.pni) == Some(q)
  }

  /** The one case in which the PNI does not end up as the service id of a contact without ACI: its
      conversation is found as it is, with an empty service id, and nothing makes it change. */
  ghost predicate LeftAsFound(c: Controller, input: Input)
    requires FoundKnown(c, input)
  {
    && input.aci.None? && c.Find(input.pni).Some?
    && c.models[c.Find(input.pni).value].serviceId.None?
    && (input.e164.None? || c.Find(input.e164) == c.Find(input.pni))
  }

  ghost predicate HasPni(c: Controller, input: Input, a: Attrs)
    requires FoundKnown(c, input)
  {
    input.pni.Some? ==>
      && a.pni == input.pni
      && (a.serviceId == input.pni || a.HasAci() <==> !LeftAsFound(c, input))
  }

  /** The result conversation `t` of the new controller `d`. */
  ghost predicate Placed(c: Controller, input: Input, newRef: Ref, d: Controller, t: Ref)
    requires FoundKnown(c, input)
  {
    && WellFormed(d) && t in d.models
    && (if newRef in d.models
        then t == newRef && d.list == c.list + [newRef] && d.models.Keys == c.models.Keys + {newRef}
        else IsFound(c, input, t) && d.list == c.list && d.models.Keys == c.models.Keys)
    && HasSlots(d.models[t], input.aci, input.e164) && HasPni(c, input, d.models[t])
    && (forall q | q in c.models && !IsFound(c, input, q) :: d.models[q] == c.models[q])
  }

  /** Handed over are the matches, other than the result, that are left without identifiers. */
  ghost predicate HandedOver(c: Controller, input: Input, d: Controller, t: Ref, merged: seq<(Ref, Ref)>)
    requires c.models.Keys <= d.models.Keys
  {
    && (forall q | q in c.models :: (t, q) in merged <==> IsFound(c, input, q) && q != t && d.models[q].IsEmpty())
    && (forall p | p in merged :: p.0 == t && p.1 in c.models)
  }

  ghost predicate AllDone(c: Controller, input: Input, newRef: Ref, m: MergeState)
    requires FoundKnown(c, input)
  {
    && m.target.Some? && Placed(c, input, newRef, m.ctl, m.target.value)
    && HandedOver(c, input, m.ctl, m.target.value, m.merged)
  }

  lemma PniHolders(c: Controller, input: Input, newRef: Ref, m: MergeState)
    requires WellFormed(c) && input.Valid() && FoundKnown(c, input) && newRef !in c.models && input.pni.Some?
    requires TwoDone(c, input, newRef, m)
    ensures forall q | q in m.ctl.models && c.Find(input.pni) != Some(q) :: !m.ctl.models[q].Holds(input.pni.value)
  {
    hide Indexed, Sound, Controller.Get;
    FindExact(c, input.pni);
    forall q | q in m.ctl.models && c.Find(input.pni) != Some(q)
      ensures !m.ctl.models[q].Holds(input.pni.value)
    {
      TypedIn(m.ctl, q);
      if q in c.models { TypedIn(c, q); }
    }
  }

  ghost predicate TargetKnownBefore(c: Controller, input: Input, newRef: Ref, m: MergeState) {
    && WellFormed(c) && input.Valid() && FoundKnown(c, input) && newRef !in c.models
    && TwoDone(c, input, newRef, m) && m.target.Some?
  }

  lemma NoPniPlaced(c: Controller, input: Input, newRef: Ref, m: MergeState)
    requires TargetKnownBefore(c, input, newRef, m) && c.Find(input.pni).None? && input.pni.Some?
    ensures var d := Give(m.ctl, m.target.value, Item(PniKey, input.pni.value));
            && Placed(c, input, newRef, d, m.target.value) && c.models.Keys <= d.models.Keys
            && d.models == m.ctl.models[m.target.value := Given(m.ctl.models[m.target.value], Item(PniKey, input.pni.value))]
  {
    hide Indexed, Sound, Controller.Get, Changed, Give;
    PniHolders(c, input, newRef, m);
    TypedIn(m.ctl, m.target.value);
    GiveResult(m.ctl, m.target.value, Item(PniKey, input.pni.value));
  }

  /** Nothing more is handed over when only the target changes. */
  lemma HandedSoFar(c: Controller, input: Input, newRef: Ref, m: MergeState, d: Controller)
    requires TargetKnownBefore(c, input, newRef, m) && (c.Find(input.pni).None? || c.Find(input.pni) == m.target)
    requires c.models.Keys <= d.models.Keys
    requires forall q | q in c.models && q != m.target.value :: d.models[q] == m.ctl.models[q]
    ensures HandedOver(c, input, d, m.target.value, m.merged)
  {
    hide Indexed, Sound, Controller.Get, HasSlots, Shrunk;
  }

  lemma PniNotGiven(c: Controller, input: Input, newRef: Ref, m: MergeState)
    requires TargetKnownBefore(c, input, newRef, m) && input.pni.None?
    ensures c.models.Keys <= m.ctl.models.Keys
    ensures Placed(c, input, newRef, m.ctl, m.target.value)
  {
    hide Indexed, Sound, Controller.Get;
  }

  /** The PNI is not given, or nobody has it, and there is a target. */
  lemma NoPniMatch(c: Controller, input: Input, newRef: Ref)
    requires WellFormed(c) && input.Valid() && FoundKnown(c, input) && newRef !in c.models
    requires AfterE164(c, input, newRef).target.Some? && c.Find(input.pni).None?
    ensures AllDone(c, input, newRef, AfterPni(c, input, newRef))
  {
    hide Indexed, Sound, Controller.Get, Changed, AfterE164, Placed, HandedOver, TwoDone, Give, Given;
    E164Done(c, input, newRef);
    var m := AfterE164(c, input, newRef);
    if input.pni.Some? {
      NoPniPlaced(c, input, newRef, m);
      HandedSoFar(c, input, newRef, m, Give(m.ctl, m.target.value, Item(PniKey, input.pni.value)));
    } else {
      PniNotGiven(c, input, newRef, m);
      HandedSoFar(c, input, newRef, m, m.ctl);
    }
  }

  lemma PniReturns(c: Controller, input: Input, newRef: Ref, m: MergeState)
    requires TargetKnownBefore(c, input, newRef, m) && c.Find(input.pni) == m.target
    ensures var t := m.target.value;
            var d := if m.ctl.models[t].pni.None? then Give(m.ctl, t, Item(PniKey, input.pni.value)) else m.ctl;
            && Placed(c, input, newRef, d, t)
            && (forall q | q in m.ctl.models && q != t :: q in d.models && d.models[q] == m.ctl.models[q])
  {
    hide Indexed, Sound, Controller.Get, Changed, Give;
    PniHolders(c, input, newRef, m);
    FindExact(c, input.pni);
    AciSlot(c.models[m.target.value], input.pni.value);
    TypedIn(m.ctl, m.target.value);
    GiveResult(m.ctl, m.target.value, Item(PniKey, input.pni.value));
  }

  /** The PNI is found at the target, from which the phone number may have driven it out. */
  lemma PniMatchIsTarget(c: Controller, input: Input, newRef: Ref)
    requires WellFormed(c) && input.Valid() && FoundKnown(c, input) && newRef !in c.models
    requires c.Find(input.pni).Some? && AfterE164(c, input, newRef).target == c.Find(input.pni)
    ensures AllDone(c, input, newRef, AfterPni(c, input, newRef))
  {
    hide Indexed, Sound, Controller.Get, Changed, AfterE164, Placed, Give;
    E164Done(c, input, newRef);
    PniReturns(c, input, newRef, AfterE164(c, input, newRef));
  }

  /** The PNI is found elsewhere. */
  lemma PniMatchIsOther(c: Controller, input: Input, newRef: Ref)
    requires WellFormed(c) && input.Valid() && FoundKnown(c, input) && newRef !in c.models
    requires AfterE164(c, input, newRef).target.Some?
    requires c.Find(input.pni).Some? && AfterE164(c, input, newRef).target != c.Find(input.pni)
    ensures AllDone(c, input, newRef, AfterPni(c, input, newRef))
  {
    hide Indexed, Sound, Controller.Get, Changed, TwoDone, Placed, HandedOver, Given, Lost, AfterE164, TakeOver;
    E164Done(c, input, newRef);
    var m := AfterE164(c, input, newRef);
    TakeFromOther(c, input, newRef, m);
    HandOther(c, input, newRef, m);
  }

  ghost predicate OtherHasPni(c: Controller, input: Input, newRef: Ref, m: MergeState) {
    TargetKnownBefore(c, input, newRef, m) && c.Find(input.pni).Some? && m.target != c.Find(input.pni)
  }

  lemma TakeResult(c: Controller, input: Input, newRef: Ref, m: MergeState)
    requires OtherHasPni(c, input, newRef, m)
    ensures c.Find(input.pni).value in m.ctl.models
    ensures var p, t := c.Find(input.pni).value, m.target.value;
            var n := TakeOver(m, Item(PniKey, input.pni.value), p, input.pni);
            var lost := Lost(m.ctl.models[p], PniKey, input.pni);
            && WellFormed(n.ctl) && n.ctl.list == m.ctl.list && n.target == m.target
            && n.ctl.models == m.ctl.models[p := lost][t := Given(m.ctl.models[t], Item(PniKey, input.pni.value))]
            && n.merged == if lost.IsEmpty() then m.merged + [(t, p)] else m.merged
  {
    hide Indexed, Sound, Controller.Get, Changed, Given, Lost;
    PniHolders(c, input, newRef, m);
    FindExact(c, input.pni);
    TakenOver(m, Item(PniKey, input.pni.value), c.Find(input.pni).value, input.pni);
  }

  lemma TakeFromOther(c: Controller, input: Input, newRef: Ref, m: MergeState)
    requires OtherHasPni(c, input, newRef, m)
    ensures c.Find(input.pni).value in m.ctl.models
    ensures var n := TakeOver(m, Item(PniKey, input.pni.value), c.Find(input.pni).value, input.pni);
            m.unused == [] && Placed(c, input, newRef, n.ctl, m.target.value)
  {
    hide Indexed, Sound, Controller.Get, Changed, Lost, TakeOver;
    TakeResult(c, input, newRef, m);
    TypedIn(m.ctl, m.target.value);
  }

  lemma HandOther(c: Controller, input: Input, newRef: Ref, m: MergeState)
    requires OtherHasPni(c, input, newRef, m)
    ensures c.Find(input.pni).value in m.ctl.models
    ensures var n := TakeOver(m, Item(PniKey, input.pni.value), c.Find(input.pni).value, input.pni);
            c.models.Keys <= n.ctl.models.Keys && HandedOver(c, input, n.ctl, m.target.value, n.merged)
  {
    hide Indexed, Sound, Controller.Get, Changed, Given, TakeOver, HasSlots, Shrunk, Attrs.Holds, Input.Valid;
    TakeResult(c, input, newRef, m);
  }

  lemma GivenOneByOne(a: Attrs, items: seq<Item>)
    requires 1 <= |items| <= 2
    ensures GivenAll(a, items) == if |items| == 1 then Given(a, items[0]) else Given(Given(a, items[0]), items[1])
  {
    ChangedIsGiven(a, items[0]);
    var b, rest := Given(a, items[0]), items[1..];
    assert GivenAll(a, items) == GivenAll(b, rest);
    if |items| == 2 {
      ChangedIsGiven(b, rest[0]);
      assert GivenAll(b, rest) == GivenAll(Given(b, rest[0]), rest[1..]);
    }
  }

  /** Neither the service id nor the phone number is found, but the PNI is. */
  ghost predicate OnlyPni(c: Controller, input: Input, newRef: Ref) {
    && WellFormed(c) && input.Valid() && FoundKnown(c, input) && newRef !in c.models
    && c.Find(input.aci).None? && c.Find(input.e164).None? && c.Find(input.pni).Some?
  }

  /** The match found by its PNI, after the unmatched values are put on it. */
  lemma UnusedOnMatch(c: Controller, input: Input, newRef: Ref)
    requires OnlyPni(c, input, newRef)
    requires Unmatched(c, input) != [] && CanTake(c.models[c.Find(input.pni).value], Unmatched(c, input)[0], input.pni)
    ensures var p, u := c.Find(input.pni).value, Unmatched(c, input);
            var n := UseUnused(MergeState(c, None, u, []), p, input.pni, newRef);
            var a := c.models[p];
            && WellFormed(n.ctl) && n.target == Some(p) && n.merged == [] && n.ctl.list == c.list
            && n.ctl.models == c.models[p := if |u| == 1 then Given(a, u[0]) else Given(Given(a, u[0]), u[1])]
  {
    hide WellFormed, Controller.Get, UseUnused, Given, CanTake, GivenAll;
    UseUnusedResult(c, Unmatched(c, input), c.Find(input.pni).value, input.pni, newRef);
    GivenOneByOne(c.models[c.Find(input.pni).value], Unmatched(c, input));
  }

  lemma OnlyPniTaken(c: Controller, input: Input, newRef: Ref)
    requires OnlyPni(c, input, newRef)
    requires Unmatched(c, input) != [] && CanTake(c.models[c.Find(input.pni).value], Unmatched(c, input)[0], input.pni)
    ensures var m := Process(MergeState(c, None, Unmatched(c, input), []), PniKey, input.pni, c.Find(input.pni), input.pni, newRef);
            m.target == c.Find(input.pni) && m.merged == [] && Placed(c, input, newRef, m.ctl, m.target.value)
  {
    hide Indexed, Sound, Controller.Get, Changed, Give, UseUnused;
    var p, unused := c.Find(input.pni).value, Unmatched(c, input);
    FindExact(c, input.pni);
    AciSlot(c.models[p], input.pni.value);
    UnusedOnMatch(c, input, newRef);
    var n := UseUnused(MergeState(c, None, unused, []), p, input.pni, newRef);
    GiveResult(n.ctl, p, Item(PniKey, input.pni.value));
  }

  lemma OnlyPniNew(c: Controller, input: Input, newRef: Ref)
    requires OnlyPni(c, input, newRef)
    requires Unmatched(c, input) != [] && !CanTake(c.models[c.Find(input.pni).value], Unmatched(c, input)[0], input.pni)
    ensures var m := Process(MergeState(c, None, Unmatched(c, input), []), PniKey, input.pni, c.Find(input.pni), input.pni, newRef);
            var lost := Lost(c.models[c.Find(input.pni).value], PniKey, input.pni);
            && m.target == Some(newRef) && Placed(c, input, newRef, m.ctl, newRef)
            && m.ctl.models[c.Find(input.pni).value] == lost
            && m.merged == if lost.IsEmpty() then [(newRef, c.Find(input.pni).value)] else []
  {
    hide Indexed, Sound, Controller.Get, Changed, Give, TakeOver, UseUnused, GivenAll, Lost;
    var p, unused := c.Find(input.pni).value, Unmatched(c, input);
    FindExact(c, input.pni);
    UseUnusedResult(c, unused, p, input.pni, newRef);
    var n := UseUnused(MergeState(c, None, unused, []), p, input.pni, newRef);
    UnusedOnNew(c, input);
    TakenOver(n, Item(PniKey, input.pni.value), p, input.pni);
  }

  /** A new conversation made for the unmatched values holds just these. */
  lemma UnusedOnNew(c: Controller, input: Input)
    requires input.Valid() && c.Find(input.aci).None? && c.Find(input.e164).None? && Unmatched(c, input) != []
    ensures var u := Unmatched(c, input);
            GivenAll(NewAttrs(u[0].value, None), u) == Attrs(input.aci, input.e164, None, None)
  {
    hide Controller.Get, GivenAll;
    var u := Unmatched(c, input);
    GivenOneByOne(NewAttrs(u[0].value, None), u);
  }

  /** Only the PNI is found: its conversation becomes the target if it can, else a new one. */
  lemma OnlyPniMatches(c: Controller, input: Input, newRef: Ref)
    requires WellFormed(c) && input.Valid() && FoundKnown(c, input) && newRef !in c.models
    requires AfterE164(c, input, newRef).target.None? && c.Find(input.pni).Some?
    ensures AllDone(c, input, newRef, AfterPni(c, input, newRef))
  {
    hide Indexed, Sound, Controller.Get, Changed, AfterE164, Process, Placed;
    E164Done(c, input, newRef);
    var p, unused := c.Find(input.pni).value, Unmatched(c, input);
    if unused == [] {
      OnlyPniAsIs(c, input, newRef);
    } else if CanTake(c.models[p], unused[0], input.pni) {
      OnlyPniTaken(c, input, newRef);
    } else {
      OnlyPniNew(c, input, newRef);
    }
  }

  lemma OnlyPniAsIs(c: Controller, input: Input, newRef: Ref)
    requires OnlyPni(c, input, newRef) && Unmatched(c, input) == []
    ensures var m := Process(MergeState(c, None, [], []), PniKey, input.pni, c.Find(input.pni), input.pni, newRef);
            m.target == c.Find(input.pni) && m.merged == [] && Placed(c, input, newRef, m.ctl, m.target.value)
  {
    hide Indexed, Sound, Controller.Get, Changed;
    FindExact(c, input.pni);
    AciSlot(c.models[c.Find(input.pni).value], input.pni.value);
  }

  // ---------- the whole merge ----------

  lemma FoundIsKnown(c: Controller, input: Input)
    requires WellFormed(c) && input.Valid()
    ensures FoundKnown(c, input)
  {
    hide Indexed, Sound, Controller.Get;
    FindExact(c, input.aci);
    FindExact(c, input.e164);
    FindExact(c, input.pni);
  }

  /** The new conversation that gets all identifiers. */
  function Together(input: Input): Attrs
    requires input.aci.Some? || input.e164.Some? || input.pni.Some?
  {
    Attrs(if input.aci.Some? then input.aci else input.pni, input.e164, input.pni, None)
  }

  lemma NothingFoundMerge(c: Controller, input: Input, newRef: Ref)
    requires WellFormed(c) && input.Valid() && FoundKnown(c, input) && newRef !in c.models
    requires c.Find(input.aci).None? && c.Find(input.e164).None? && c.Find(input.pni).None?
    requires input.aci.Some? || input.e164.Some? || input.pni.Some?
    ensures Merge(c, input, newRef) == Some(Merged(AddConversation(c, newRef, Together(input)), newRef, []))
  {
    hide WellFormed, Controller.Get, AddConversation;
  }

  lemma TogetherIsPlaced(c: Controller, input: Input, newRef: Ref)
    requires WellFormed(c) && input.Valid() && FoundKnown(c, input) && newRef !in c.models
    requires c.Find(input.aci).None? && c.Find(input.e164).None? && c.Find(input.pni).None?
    requires input.aci.Some? || input.e164.Some? || input.pni.Some?
    ensures Placed(c, input, newRef, AddConversation(c, newRef, Together(input)), newRef)
  {
    hide WellFormed, Controller.Get, AddToLookup;
    FindExact(c, input.aci);
    FindExact(c, input.e164);
    FindExact(c, input.pni);
    AddKeepsWellFormed(c, newRef, Together(input));
  }

  /** Nothing is found: the new conversation gets all identifiers. */
  lemma NothingFound(c: Controller, input: Input, newRef: Ref)
    requires WellFormed(c) && input.Valid() && FoundKnown(c, input) && newRef !in c.models
    requires c.Find(input.aci).None? && c.Find(input.e164).None? && c.Find(input.pni).None?
    requires input.aci.Some? || input.e164.Some? || input.pni.Some?
    ensures var r := Merge(c, input, newRef);
            && r.Some? && r.value.conversation == newRef && r.value.merged == []
            && Placed(c, input, newRef, r.value.ctl, newRef)
  {
    hide WellFormed, Controller.Get, Merge, Placed;
    NothingFoundMerge(c, input, newRef);
    TogetherIsPlaced(c, input, newRef);
  }

  lemma ItemsDone(c: Controller, input: Input, newRef: Ref)
    requires WellFormed(c) && input.Valid() && FoundKnown(c, input) && newRef !in c.models
    requires !(c.Find(input.aci).None? && c.Find(input.e164).None? && c.Find(input.pni).None?)
    ensures AllDone(c, input, newRef, AfterPni(c, input, newRef))
  {
    hide Indexed, Sound, Controller.Get, AfterE164, AfterPni, AllDone;
    E164Done(c, input, newRef);
    var m := AfterE164(c, input, newRef);
    if m.target.None? {
      OnlyPniMatches(c, input, newRef);
    } else if c.Find(input.pni).None? {
      NoPniMatch(c, input, newRef);
    } else if c.Find(input.pni) == m.target {
      PniMatchIsTarget(c, input, newRef);
    } else {
      PniMatchIsOther(c, input, newRef);
    }
  }

  /** The error when nothing is given, and otherwise: the result holds every given identifier,
      lookups and uniqueness survive, unmatched conversations are untouched, and exactly the
      matches left empty are handed over. */
  lemma MergeIsCorrect(c: Controller, input: Input, newRef: Ref)
    requires WellFormed(c) && input.Valid() && newRef !in c.models
    ensures FoundKnown(c, input)
    ensures Merge(c, input, newRef).None? <==> input.aci.None? && input.e164.None? && input.pni.None?
    ensures Merge(c, input, newRef).Some? ==>
              var r := Merge(c, input, newRef).value;
              && Placed(c, input, newRef, r.ctl, r.conversation)
              && HandedOver(c, input, r.ctl, r.conversation, r.merged)
  {
    hide Indexed, Sound, Controller.Get, AfterPni, Placed;
    FoundIsKnown(c, input);
    if c.Find(input.aci).None? && c.Find(input.e164).None? && c.Find(input.pni).None? {
      if input.aci.Some? || input.e164.Some? || input.pni.Some? {
        NothingFound(c, input, newRef);
        PlacedKeeps(c, input, newRef, Merge(c, input, newRef).value.ctl, newRef);
      }
    } else {
      ItemsDone(c, input, newRef);
    }
  }

  lemma PlacedKeeps(c: Controller, input: Input, newRef: Ref, d: Controller, t: Ref)
    requires FoundKnown(c, input) && Placed(c, input, newRef, d, t)
    ensures c.models.Keys <= d.models.Keys
  {
    hide Indexed, Sound, Controller.Get;
  }

  /** `get` on every given identifier yields the result. */
  lemma MergedIsFound(c: Controller, input: Input, newRef: Ref)
    requires WellFormed(c) && input.Valid() && newRef !in c.models
    ensures FoundKnown(c, input)
    ensures Merge(c, input, newRef).Some? ==>
              var r := Merge(c, input, newRef).value;
              && (input.aci.Some? ==> r.ctl.Get(input.aci.value) == Some(r.conversation))
              && (input.e164.Some? ==> r.ctl.Get(input.e164.value) == Some(r.conversation))
              && (input.pni.Some? ==> r.ctl.Get(input.pni.value) == Some(r.conversation))
  {
    hide Indexed, Sound, Controller.Get, Merge;
    MergeIsCorrect(c, input, newRef);
    if Merge(c, input, newRef).Some? {
      var r := Merge(c, input, newRef).value;
      FindExact(r.ctl, input.aci);
      FindExact(r.ctl, input.e164);
      FindExact(r.ctl, input.pni);
    }
  }
}
