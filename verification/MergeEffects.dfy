/** Which conversation a merge results in, and what it does to the identifiers that were not given. */
module MergeEffects {
  import opened Options
  import opened Conversations
  import opened ConversationMerge
  import opened MergeTheorem

  // ---------- which conversation it is ----------

  /** The first match wins, unless it cannot take the first of the values not found before it. */
  function Chosen(c: Controller, input: Input, newRef: Ref): Ref
    requires FoundKnown(c, input)
  {
    var first := if c.Find(input.aci).Some? then c.Find(input.aci)
                 else if c.Find(input.e164).Some? then c.Find(input.e164) else c.Find(input.pni);
    var before := if c.Find(input.aci).Some? then []
                  else if c.Find(input.e164).Some? then (if input.aci.Some? then [Item(ServiceId, input.aci.value)] else [])
                  else Unmatched(c, input);
    if first.None? then newRef
    else if before == [] || CanTake(c.models[first.value], before[0], input.pni) then first.value
    else newRef
  }

  /** The conversation chosen at the first match, from the values not found before. */
  lemma FirstMatchChooses(c: Controller, unused: seq<Item>, key: Key, value: Ident, found: Ref, pni: Option<Ident>, newRef: Ref)
    requires found in c.models && (unused != [] ==> c.Get(unused[0].value).None?)
    ensures Process(MergeState(c, None, unused, []), key, Some(value), Some(found), pni, newRef).target
         == Some(if unused == [] || CanTake(c.models[found], unused[0], pni) then found else newRef)
  {
    hide GiveAll, TakeOver, Give, AddToLookup, CanTake, Controller.Get;
  }

  /** A target once chosen stays. */
  lemma TargetStays(m: MergeState, key: Key, value: Option<Ident>, found: Option<Ref>, pni: Option<Ident>, newRef: Ref)
    requires m.TargetKnown() && (found.Some? ==> found.value in m.ctl.models) && m.target.Some?
    ensures Process(m, key, value, found, pni, newRef).target == m.target
  {
    hide GiveAll, TakeOver, Give, AddToLookup, CanTake, Controller.Get;
  }

  lemma ChosenAfterE164(c: Controller, input: Input, newRef: Ref)
    requires FoundKnown(c, input)
    ensures var m := AfterE164(c, input, newRef);
            if c.Find(input.aci).Some? || c.Find(input.e164).Some? then m.target == Some(Chosen(c, input, newRef))
            else m == MergeState(c, None, Unmatched(c, input), [])
  {
    hide UseUnused, TakeOver, Give, CanTake, Controller.Get;
    var m := AfterAci(c, input, newRef);
    if c.Find(input.aci).Some? {
      FirstMatchChooses(c, [], ServiceId, input.aci.value, c.Find(input.aci).value, input.pni, newRef);
      TargetStays(m, E164, input.e164, c.Find(input.e164), input.pni, newRef);
    } else if c.Find(input.e164).Some? {
      FirstMatchChooses(c, m.unused, E164, input.e164.value, c.Find(input.e164).value, input.pni, newRef);
    }
  }

  /** Whatever is moved between the conversations: the result is the one chosen at the first match. */
  lemma ResultIsChosen(c: Controller, input: Input, newRef: Ref)
    requires FoundKnown(c, input) && Merge(c, input, newRef).Some?
    ensures Merge(c, input, newRef).value.conversation == Chosen(c, input, newRef)
  {
    hide UseUnused, TakeOver, Give, CanTake, Controller.Get, AfterE164;
    ChosenAfterE164(c, input, newRef);
    var m := AfterE164(c, input, newRef);
    if m.target.Some? {
      TargetStays(m, PniKey, input.pni, c.Find(input.pni), input.pni, newRef);
    } else if c.Find(input.pni).Some? {
      FirstMatchChooses(c, m.unused, PniKey, input.pni.value, c.Find(input.pni).value, input.pni, newRef);
    }
  }

  // ---------- what the others lose ----------

  /** A match other than the result loses the identifier it was found by. With the phone number goes the
      PNI, and with the PNI goes its double in the service id slot. */
  function LeftOver(a: Attrs, byE164: bool, byPni: bool): Attrs {
    if !byE164 && !byPni then a
    else Attrs(if a.HasAci() then a.serviceId else None, if byE164 then None else a.e164, None, a.group)
  }

  ghost predicate OthersLose(c: Controller, input: Input, d: Models, t: Ref) {
    forall q | q in c.models && q != t ::
      q in d && d[q] == LeftOver(c.models[q], c.Find(input.e164) == Some(q), c.Find(input.pni) == Some(q))
  }

  /** Putting values on one conversation leaves the others alone. */
  lemma {:induction false} GiveAllOnly(c: Controller, r: Ref, items: seq<Item>)
    requires r in c.models
    ensures GiveAll(c, r, items).models.Keys == c.models.Keys
    ensures forall q | q in c.models && q != r :: GiveAll(c, r, items).models[q] == c.models[q]
    decreases |items|
  {
    hide Give;
    if items != [] {
      GiveAllOnly(Give(c, r, items[0]), r, items[1..]);
    }
  }

  lemma UseUnusedOnly(m: MergeState, found: Ref, pni: Option<Ident>, newRef: Ref)
    requires found in m.ctl.models && m.TargetKnown() && newRef !in m.ctl.models
    ensures var n := UseUnused(m, found, pni, newRef);
            && (m.target.Some? ==> n.target == m.target)
            && forall q | q in m.ctl.models && n.target != Some(q) :: n.ctl.models[q] == m.ctl.models[q]
  {
    hide AddToLookup, CanTake, Controller.Get, GiveAll;
    if m.unused != [] {
      var chosen :=
        if m.target.Some? then (m.ctl, m.target.value)
        else if CanTake(m.ctl.models[found], m.unused[0], pni) then (m.ctl, found)
        else GetOrCreate(m.ctl, m.unused[0].value, None, newRef);
      if chosen.1 in chosen.0.models {
        GiveAllOnly(chosen.0, chosen.1, m.unused);
      }
    }
  }

  /** One match: the conversations that are not the target afterwards. */
  lemma ProcessOthers(m: MergeState, key: Key, value: Option<Ident>, found: Option<Ref>, pni: Option<Ident>, newRef: Ref)
    requires m.TargetKnown() && (found.Some? ==> found.value in m.ctl.models && value.Some?)
    requires newRef !in m.ctl.models || m.unused == []
    ensures var n := Process(m, key, value, found, pni, newRef);
            forall q | q in m.ctl.models && n.target != Some(q) ::
              n.ctl.models[q] == if found == Some(q) then Lost(m.ctl.models[q], key, pni) else m.ctl.models[q]
  {
    hide UseUnused, Changed, CanTake, Controller.Get, Loss, Lost, Give;
    if found.Some? && value.Some? {
      if m.unused == [] {
        assert UseUnused(m, found.value, pni, newRef) == m by { UnusedNone(m, found.value, pni, newRef); }
      } else {
        UseUnusedOnly(m, found.value, pni, newRef);
      }
      ChangedIsLost(m.ctl.models[found.value], key, pni);
    }
  }

  lemma UnusedNone(m: MergeState, found: Ref, pni: Option<Ident>, newRef: Ref)
    requires found in m.ctl.models && m.TargetKnown() && m.unused == []
    ensures UseUnused(m, found, pni, newRef) == m
  {
  }

  lemma LostIsLeftOver(a: Attrs, input: Input, byE164: bool, byPni: bool)
    requires a.WellTyped() && input.Valid() && (byPni ==> input.pni.Some?)
    ensures var b := if byE164 then Lost(a, E164, input.pni) else a;
            (if byPni then Lost(b, PniKey, input.pni) else b) == LeftOver(a, byE164, byPni)
  {
  }

  ghost predicate Ready(c: Controller, input: Input, newRef: Ref) {
    WellFormed(c) && input.Valid() && FoundKnown(c, input) && newRef !in c.models
  }

  lemma OthersAfterE164(c: Controller, input: Input, newRef: Ref)
    requires Ready(c, input, newRef)
    ensures var m := AfterE164(c, input, newRef);
            forall q | q in c.models && m.target != Some(q) ::
              m.ctl.models[q] == if c.Find(input.e164) == Some(q) then Lost(c.models[q], E164, input.pni) else c.models[q]
  {
    hide WellFormed, Process, Controller.Get, Lost;
    AciDone(c, input, newRef);
    FoundGiven(c, input);
    ProcessOthers(AfterAci(c, input, newRef), E164, input.e164, c.Find(input.e164), input.pni, newRef);
  }

  lemma FoundGiven(c: Controller, input: Input)
    ensures c.Find(input.e164).Some? ==> input.e164.Some?
    ensures c.Find(input.pni).Some? ==> input.pni.Some?
  {
  }

  lemma NothingUnused(c: Controller, input: Input, newRef: Ref)
    requires Ready(c, input, newRef)
    ensures var m := AfterE164(c, input, newRef);
            if m.target.Some? then m.unused == [] else m == MergeState(c, None, Unmatched(c, input), [])
  {
    hide WellFormed, Controller.Get, AfterE164;
    E164Done(c, input, newRef);
  }

  lemma OthersAfterPni(c: Controller, input: Input, newRef: Ref)
    requires Ready(c, input, newRef)
    ensures var m := AfterPni(c, input, newRef);
            forall q | q in c.models && m.target != Some(q) ::
              m.ctl.models[q] == LeftOver(c.models[q], c.Find(input.e164) == Some(q), c.Find(input.pni) == Some(q))
  {
    hide WellFormed, Process, Controller.Get, Lost, AfterE164, LeftOver;
    var m := AfterE164(c, input, newRef);
    NothingUnused(c, input, newRef);
    FoundGiven(c, input);
    OthersAfterE164(c, input, newRef);
    ProcessOthers(m, PniKey, input.pni, c.Find(input.pni), input.pni, newRef);
    if m.target.Some? { TargetStays(m, PniKey, input.pni, c.Find(input.pni), input.pni, newRef); }
    forall q | q in c.models && AfterPni(c, input, newRef).target != Some(q)
      ensures AfterPni(c, input, newRef).ctl.models[q]
           == LeftOver(c.models[q], c.Find(input.e164) == Some(q), c.Find(input.pni) == Some(q))
    {
      TypedIn(c, q);
      LostIsLeftOver(c.models[q], input, c.Find(input.e164) == Some(q), c.Find(input.pni) == Some(q));
    }
  }

  /** The other matches lose the identifiers they were found by, and nothing else. */
  lemma OthersLoseOnly(c: Controller, input: Input, newRef: Ref)
    requires Ready(c, input, newRef) && Merge(c, input, newRef).Some?
    ensures var r := Merge(c, input, newRef).value; OthersLose(c, input, r.ctl.models, r.conversation)
  {
    hide WellFormed, Controller.Get, AfterPni, AddToLookup, LeftOver;
    OthersAfterPni(c, input, newRef);
  }

  // ---------- what the result keeps ----------

  /** The number comes from elsewhere, so that a PNI known before is given up. */
  predicate NumberMoves(c: Controller, input: Input, t: Ref) {
    input.e164.Some? && c.Find(input.e164) != Some(t)
  }

  /** What is not given stays: group, ACI, phone number, and the PNI unless the number moves. */
  predicate KeepsRest(a: Attrs, b: Attrs, input: Input, moves: bool) {
    && b.group == a.group && b.WellTyped()
    && (input.aci.None? && a.HasAci() ==> b.serviceId == a.serviceId)
    && (input.e164.None? ==> b.e164 == a.e164)
    && (input.pni.None? ==> b.pni == a.pni || (moves && b.pni.None?))
  }

  predicate FromInput(item: Item, input: Input, moves: bool) {
    match item.key
    case ServiceId => input.aci == Some(item.value)
    case E164 => input.e164 == Some(item.value) && moves
    case PniKey => input.pni == Some(item.value)
  }

  function Before(c: Controller, t: Ref): Attrs {
    if t in c.models then c.models[t] else Attrs(None, None, None, None)
  }

  lemma GivenKeepsRest(a: Attrs, b: Attrs, item: Item, input: Input, moves: bool)
    requires KeepsRest(a, b, input, moves) && input.Valid() && FromInput(item, input, moves)
    ensures KeepsRest(a, Given(b, item), input, moves)
  {
  }

  lemma {:induction false} GivenAllKeepsRest(a: Attrs, b: Attrs, items: seq<Item>, input: Input, moves: bool)
    requires KeepsRest(a, b, input, moves) && input.Valid() && forall i | i in items :: FromInput(i, input, moves)
    ensures KeepsRest(a, GivenAll(b, items), input, moves)
    decreases |items|
  {
    hide KeepsRest, FromInput, Changed;
    if items != [] {
      assert items[0] in items;
      ChangedIsGiven(b, items[0]);
      GivenKeepsRest(a, b, items[0], input, moves);
      GivenAllKeepsRest(a, Given(b, items[0]), items[1..], input, moves);
    }
  }

  /** A match when the target is known: the value is put on it, or it has one already. */
  lemma TargetKeepsRest(m: MergeState, key: Key, value: Option<Ident>, found: Option<Ref>, newRef: Ref,
                        a: Attrs, input: Input, moves: bool)
    requires m.TargetKnown() && m.target.Some? && m.unused == [] && (found.Some? ==> found.value in m.ctl.models)
    requires input.Valid() && KeepsRest(a, m.ctl.models[m.target.value], input, moves)
    requires value.Some? && !(found == m.target && Slot(m.ctl.models[found.value], key).Some?) ==>
               FromInput(Item(key, value.value), input, moves)
    ensures var n := Process(m, key, value, found, input.pni, newRef);
            KeepsRest(a, n.ctl.models[m.target.value], input, moves)
  {
    hide KeepsRest, FromInput, Changed, CanTake, Controller.Get, UseUnused, Given;
    if found.Some? { UnusedNone(m, found.value, input.pni, newRef); }
    if value.Some? && !(found == m.target && Slot(m.ctl.models[found.value], key).Some?) {
      ChangedIsGiven(m.ctl.models[m.target.value], Item(key, value.value));
      GivenKeepsRest(a, m.ctl.models[m.target.value], Item(key, value.value), input, moves);
    }
  }

  /** The first match: unmatched values first, then its own value. */
  lemma UnusedKeepRest(c: Controller, unused: seq<Item>, found: Ref, input: Input, newRef: Ref)
    requires Ready(c, input, newRef) && found in c.models && unused != []
    requires forall i | i in unused :: Fits(i) && i.key != PniKey && c.Get(i.value).None?
    ensures var n := UseUnused(MergeState(c, None, unused, []), found, input.pni, newRef);
            && n.target.Some? && n.target.value in n.ctl.models && n.unused == []
            && ((forall i | i in unused :: FromInput(i, input, NumberMoves(c, input, n.target.value))) ==>
                  KeepsRest(Before(c, n.target.value), n.ctl.models[n.target.value], input,
                            NumberMoves(c, input, n.target.value)))
  {
    hide WellFormed, Controller.Get, UseUnused, CanTake, GivenAll, FromInput, NumberMoves;
    UseUnusedResult(c, unused, found, input.pni, newRef);
    var n := UseUnused(MergeState(c, None, unused, []), found, input.pni, newRef);
    var moves := NumberMoves(c, input, n.target.value);
    if forall i | i in unused :: FromInput(i, input, moves) {
      assert unused[0] in unused;
      if n.target == Some(found) {
        TypedIn(c, found);
        GivenAllKeepsRest(c.models[found], c.models[found], unused, input, moves);
      } else {
        NewKeepsRest(unused[0], input, moves);
        GivenAllKeepsRest(Before(c, newRef), NewAttrs(unused[0].value, None), unused, input, moves);
      }
    }
  }

  lemma NewKeepsRest(item: Item, input: Input, moves: bool)
    requires input.Valid() && FromInput(item, input, moves) && Fits(item) && item.key != PniKey
    ensures KeepsRest(Attrs(None, None, None, None), NewAttrs(item.value, None), input, moves)
  {
  }

  lemma NumberFound(c: Controller, input: Input)
    requires WellFormed(c) && input.Valid() && c.Find(input.e164).Some?
    ensures c.Find(input.e164).value in c.models && c.models[c.Find(input.e164).value].e164 == input.e164
  {
    hide WellFormed, Controller.Get;
    FindExact(c, input.e164);
  }

  lemma ResultAfterE164(c: Controller, input: Input, newRef: Ref)
    requires Ready(c, input, newRef) && AfterE164(c, input, newRef).target.Some?
    ensures var m := AfterE164(c, input, newRef);
            KeepsRest(Before(c, m.target.value), m.ctl.models[m.target.value], input, NumberMoves(c, input, m.target.value))
  {
    hide WellFormed, Controller.Get, KeepsRest, Process, CanTake;
    AciDone(c, input, newRef);
    var m := AfterAci(c, input, newRef);
    if m.target.Some? {
      var t := m.target.value;
      StartsKept(c, t, input);
      if c.Find(input.e164) == Some(t) { NumberFound(c, input); }
      TargetStays(m, E164, input.e164, c.Find(input.e164), input.pni, newRef);
      TargetKeepsRest(m, E164, input.e164, c.Find(input.e164), newRef, c.models[t], input, NumberMoves(c, input, t));
    } else {
      E164FirstKeepsRest(c, input, newRef);
    }
  }

  lemma StartsKept(c: Controller, t: Ref, input: Input)
    requires WellFormed(c) && t in c.models
    ensures KeepsRest(c.models[t], c.models[t], input, NumberMoves(c, input, t))
  {
    hide Indexed;
    TypedIn(c, t);
  }

  lemma E164FirstKeepsRest(c: Controller, input: Input, newRef: Ref)
    requires Ready(c, input, newRef) && c.Find(input.aci).None? && AfterE164(c, input, newRef).target.Some?
    ensures var m := AfterE164(c, input, newRef);
            KeepsRest(Before(c, m.target.value), m.ctl.models[m.target.value], input, NumberMoves(c, input, m.target.value))
  {
    hide WellFormed, Controller.Get, KeepsRest, CanTake, UseUnused, TakeOver, Give;
    AciDone(c, input, newRef);
    ChosenAfterE164(c, input, newRef);
    var f := c.Find(input.e164).value;
    NumberFound(c, input);
    var m := AfterAci(c, input, newRef);
    if m.unused == [] {
      UnusedNone(m, f, input.pni, newRef);
      StartsKept(c, f, input);
    } else {
      UnusedKeepRest(c, m.unused, f, input, newRef);
      var n := UseUnused(m, f, input.pni, newRef);
      UnusedNone(n, f, input.pni, newRef);
      UnusedKeepsSlot(c, m.unused[0], f, input, newRef);
      TargetKeepsRest(n, E164, input.e164, Some(f), newRef, Before(c, n.target.value), input,
                      NumberMoves(c, input, n.target.value));
    }
  }

  /** An ACI put on the match leaves its phone number alone. */
  lemma UnusedKeepsSlot(c: Controller, item: Item, found: Ref, input: Input, newRef: Ref)
    requires Ready(c, input, newRef) && found in c.models && Fits(item) && item.key == ServiceId && c.Get(item.value).None?
    ensures var n := UseUnused(MergeState(c, None, [item], []), found, input.pni, newRef);
            n.target == Some(found) ==> n.ctl.models[found].e164 == c.models[found].e164
  {
    hide WellFormed, Controller.Get, UseUnused, CanTake;
    UseUnusedResult(c, [item], found, input.pni, newRef);
    GivenOneByOne(c.models[found], [item]);
  }

  lemma ResultAfterPni(c: Controller, input: Input, newRef: Ref)
    requires Ready(c, input, newRef) && AfterPni(c, input, newRef).target.Some?
    ensures var m := AfterPni(c, input, newRef);
            KeepsRest(Before(c, m.target.value), m.ctl.models[m.target.value], input, NumberMoves(c, input, m.target.value))
  {
    hide WellFormed, Controller.Get, KeepsRest, CanTake, UseUnused, TakeOver, Give, AfterE164;
    NothingUnused(c, input, newRef);
    FoundGiven(c, input);
    var m := AfterE164(c, input, newRef);
    if m.target.Some? {
      var t := m.target.value;
      ResultAfterE164(c, input, newRef);
      TargetStays(m, PniKey, input.pni, c.Find(input.pni), input.pni, newRef);
      TargetKeepsRest(m, PniKey, input.pni, c.Find(input.pni), newRef, Before(c, t), input, NumberMoves(c, input, t));
    } else if c.Find(input.pni).Some? {
      var f := c.Find(input.pni).value;
      if m.unused == [] {
        UnusedNone(m, f, input.pni, newRef);
        StartsKept(c, f, input);
      } else {
        UnusedKeepRest(c, m.unused, f, input, newRef);
        var n := UseUnused(m, f, input.pni, newRef);
        UnusedNone(n, f, input.pni, newRef);
        TargetKeepsRest(n, PniKey, input.pni, Some(f), newRef, Before(c, n.target.value), input,
                        NumberMoves(c, input, n.target.value));
      }
    }
  }

  /** The result keeps whatever was not given. */
  lemma ResultKeepsRest(c: Controller, input: Input, newRef: Ref)
    requires Ready(c, input, newRef) && Merge(c, input, newRef).Some?
    ensures var r := Merge(c, input, newRef).value;
            && r.conversation in r.ctl.models
            && KeepsRest(Before(c, r.conversation), r.ctl.models[r.conversation], input, NumberMoves(c, input, r.conversation))
  {
    hide WellFormed, Controller.Get, AfterPni, AddToLookup;
    if AfterPni(c, input, newRef).target.Some? {
      ResultAfterPni(c, input, newRef);
    } else {
      NoTargetNothingFound(c, input, newRef);
      NothingFoundMerge(c, input, newRef);
    }
  }

  lemma NoTargetNothingFound(c: Controller, input: Input, newRef: Ref)
    requires Ready(c, input, newRef) && AfterPni(c, input, newRef).target.None?
    ensures c.Find(input.aci).None? && c.Find(input.e164).None? && c.Find(input.pni).None?
  {
    hide WellFormed, Controller.Get, UseUnused, TakeOver, Give, CanTake, AfterE164;
    ChosenAfterE164(c, input, newRef);
    var m := AfterE164(c, input, newRef);
    if m.target.Some? {
      TargetStays(m, PniKey, input.pni, c.Find(input.pni), input.pni, newRef);
    } else if c.Find(input.pni).Some? {
      FirstMatchChooses(c, m.unused, PniKey, input.pni.value, c.Find(input.pni).value, input.pni, newRef);
    }
  }

  // ---------- a new number drives out the PNI ----------

  lemma NumberIsGivenLast(m: MergeState, value: Ident, found: Option<Ref>, pni: Option<Ident>, newRef: Ref)
    requires m.TargetKnown() && m.target.Some? && m.unused == [] && found != m.target
    requires found.Some? ==> found.value in m.ctl.models
    ensures Process(m, E164, Some(value), found, pni, newRef).ctl.models[m.target.value].pni.None?
  {
    hide Changed, CanTake, Controller.Get, UseUnused;
    if found.Some? { UnusedNone(m, found.value, pni, newRef); }
    ChangedIsGiven(m.ctl.models[m.target.value], Item(E164, value));
  }

  lemma NumberMovedAfterE164(c: Controller, input: Input, newRef: Ref)
    requires Ready(c, input, newRef) && AfterE164(c, input, newRef).target.Some?
    requires NumberMoves(c, input, AfterE164(c, input, newRef).target.value)
    ensures var m := AfterE164(c, input, newRef); m.ctl.models[m.target.value].pni.None?
  {
    hide WellFormed, Controller.Get, CanTake, UseUnused, TakeOver, Give;
    AciDone(c, input, newRef);
    ChosenAfterE164(c, input, newRef);
    var m := AfterAci(c, input, newRef);
    if m.target.Some? {
      TargetStays(m, E164, input.e164, c.Find(input.e164), input.pni, newRef);
      NumberIsGivenLast(m, input.e164.value, c.Find(input.e164), input.pni, newRef);
    } else {
      var f := c.Find(input.e164).value;
      UnusedKeepRest(c, m.unused, f, input, newRef);
      var n := UseUnused(m, f, input.pni, newRef);
      UnusedNone(n, f, input.pni, newRef);
      NumberIsGivenLast(n, input.e164.value, Some(f), input.pni, newRef);
    }
  }

  /** Without a PNI given, the result keeps its PNI if and only if its number does not come from elsewhere. */
  lemma PniGoesWithNumber(c: Controller, input: Input, newRef: Ref)
    requires Ready(c, input, newRef) && Merge(c, input, newRef).Some? && input.pni.None?
    ensures var r := Merge(c, input, newRef).value;
            && r.conversation in r.ctl.models
            && r.ctl.models[r.conversation].pni
               == if NumberMoves(c, input, r.conversation) then None else Before(c, r.conversation).pni
  {
    hide WellFormed, Controller.Get, AfterE164, AddToLookup, Merge;
    ResultKeepsRest(c, input, newRef);
    MergeWithoutPni(c, input, newRef);
    var m := AfterE164(c, input, newRef);
    if m.target.Some? {
      if NumberMoves(c, input, m.target.value) { NumberMovedAfterE164(c, input, newRef); }
    } else {
      NoTargetNothingFound(c, input, newRef);
      NothingFoundMerge(c, input, newRef);
    }
  }

  lemma MergeWithoutPni(c: Controller, input: Input, newRef: Ref)
    requires FoundKnown(c, input) && input.pni.None? && Merge(c, input, newRef).Some?
    ensures var m := AfterE164(c, input, newRef);
            && AfterPni(c, input, newRef) == m && (input.aci.Some? || input.e164.Some?)
            && (m.target.Some? ==> Merge(c, input, newRef) == Some(Merged(m.ctl, m.target.value, m.merged)))
  {
    hide Controller.Get, AfterE164;
  }
}
