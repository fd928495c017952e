/** Runs of merges: a contact with a PNI keeps a service id, so that the one case in which a merge leaves
    the PNI out of the service id slot never comes up; it needs a contact that was stored in that way. */
module MergeRuns {
  import opened Options
  import opened Conversations
  import opened ConversationMerge
  import opened MergeTheorem

  predicate Served(a: Attrs) { a.pni.Some? ==> a.serviceId.Some? }

  ghost predicate AllServed(models: Models) { forall r | r in models :: Served(models[r]) }

  lemma GivenIsServed(a: Attrs, item: Item)
    requires Served(a)
    ensures Served(Changed(a, ChangeOf(item.key, Some(item.value))))
  {
  }

  lemma LostIsServed(a: Attrs, key: Key, pni: Option<Ident>)
    requires Served(a) && key != ServiceId
    ensures Served(Changed(a, Loss(a, key, pni)))
  {
  }

  lemma {:induction false} GiveAllServes(c: Controller, r: Ref, items: seq<Item>)
    requires AllServed(c.models) && r in c.models
    ensures AllServed(GiveAll(c, r, items).models)
    decreases |items|
  {
    hide Served, ApplyChange;
    if items != [] {
      GivenIsServed(c.models[r], items[0]);
      GiveAllServes(Give(c, r, items[0]), r, items[1..]);
    }
  }

  lemma UseUnusedServes(m: MergeState, found: Ref, pni: Option<Ident>, newRef: Ref)
    requires found in m.ctl.models && m.TargetKnown() && AllServed(m.ctl.models)
    ensures AllServed(UseUnused(m, found, pni, newRef).ctl.models)
  {
    hide CanTake, GiveAll, Controller.Get, AddToLookup;
    if m.unused != [] {
      var item := m.unused[0];
      var chosen := if m.target.Some? then (m.ctl, m.target.value)
                    else if CanTake(m.ctl.models[found], item, pni) then (m.ctl, found)
                    else GetOrCreate(m.ctl, item.value, None, newRef);
      assert AllServed(chosen.0.models);
      if chosen.1 in chosen.0.models { GiveAllServes(chosen.0, chosen.1, m.unused); }
    }
  }

  lemma TakeOverServes(m: MergeState, item: Item, found: Ref, pni: Option<Ident>)
    requires found in m.ctl.models && m.target.Some? && m.TargetKnown() && AllServed(m.ctl.models) && item.key != ServiceId
    ensures AllServed(TakeOver(m, item, found, pni).ctl.models)
  {
    hide Served, Changed, Loss, ApplyChange;
    LostIsServed(m.ctl.models[found], item.key, pni);
    var c1 := ApplyChange(m.ctl, found, Loss(m.ctl.models[found], item.key, pni));
    GivenIsServed(c1.models[m.target.value], item);
  }

  lemma ProcessServes(m: MergeState, key: Key, value: Option<Ident>, found: Option<Ref>, pni: Option<Ident>, newRef: Ref)
    requires m.TargetKnown() && (found.Some? ==> found.value in m.ctl.models) && AllServed(m.ctl.models)
    requires key == ServiceId ==> m.target.None? && m.unused == []
    ensures AllServed(Process(m, key, value, found, pni, newRef).ctl.models)
  {
    hide Served, UseUnused, TakeOver, Changed, ApplyChange;
    if value.Some? {
      var item := Item(key, value.value);
      if found.None? {
        if m.target.Some? { GivenIsServed(m.ctl.models[m.target.value], item); }
      } else {
        UseUnusedServes(m, found.value, pni, newRef);
        var m1 := UseUnused(m, found.value, pni, newRef);
        if m.unused == [] { NothingToUse(m, found.value, pni, newRef); }
        if m1.target.Some? && m1.target != found {
          TakeOverServes(m1, item, found.value, pni);
        } else {
          GivenIsServed(m1.ctl.models[found.value], item);
        }
      }
    }
  }

  lemma NothingToUse(m: MergeState, found: Ref, pni: Option<Ident>, newRef: Ref)
    requires found in m.ctl.models && m.TargetKnown() && m.unused == []
    ensures UseUnused(m, found, pni, newRef) == m
  {
  }

  lemma NewIsServed(input: Input)
    requires input.Valid() && (input.aci.Some? || input.e164.Some? || input.pni.Some?)
    ensures var id := if input.aci.Some? then input.aci.value
                      else if input.pni.Some? then input.pni.value else input.e164.value;
            Served(NewAttrs(id, Some((input.e164, input.pni))))
  {
  }

  lemma MergeServes(c: Controller, input: Input, newRef: Ref)
    requires FoundKnown(c, input) && input.Valid() && AllServed(c.models) && Merge(c, input, newRef).Some?
    ensures AllServed(Merge(c, input, newRef).value.ctl.models)
  {
    hide Served, Process, Controller.Get, NewAttrs, AddToLookup;
    ProcessServes(MergeState(c, None, [], []), ServiceId, input.aci, c.Find(input.aci), input.pni, newRef);
    ProcessServes(AfterAci(c, input, newRef), E164, input.e164, c.Find(input.e164), input.pni, newRef);
    ProcessServes(AfterE164(c, input, newRef), PniKey, input.pni, c.Find(input.pni), input.pni, newRef);
    NewIsServed(input);
  }

  // ---------- runs ----------

  /** One call, with the local id that would be generated. */
  datatype Call = Call(input: Input, newRef: Ref)

  ghost function After(c: Controller, calls: seq<Call>): Controller
    decreases |calls|
  {
    if calls == [] then c else After(Next(c, calls[0]), calls[1..])
  }

  ghost function Next(c: Controller, m: Call): Controller {
    if FoundKnown(c, m.input) && Merge(c, m.input, m.newRef).Some? then Merge(c, m.input, m.newRef).value.ctl else c
  }

  ghost predicate Possible(c: Controller, m: Call) { m.input.Valid() && m.newRef !in c.models }

  ghost predicate Runs(c: Controller, calls: seq<Call>)
    decreases |calls|
  {
    calls == [] || (Possible(c, calls[0]) && Runs(Next(c, calls[0]), calls[1..]))
  }

  lemma NextKeeps(c: Controller, m: Call)
    requires WellFormed(c) && AllServed(c.models) && Possible(c, m)
    ensures WellFormed(Next(c, m)) && AllServed(Next(c, m).models)
  {
    hide WellFormed, AllServed, FoundKnown, Merge, HandedOver;
    MergeIsCorrect(c, m.input, m.newRef);
    if Merge(c, m.input, m.newRef).Some? { MergeServes(c, m.input, m.newRef); }
  }

  lemma {:induction false} RunKeeps(c: Controller, calls: seq<Call>)
    requires WellFormed(c) && AllServed(c.models) && Runs(c, calls)
    ensures WellFormed(After(c, calls)) && AllServed(After(c, calls).models)
    decreases |calls|
  {
    hide WellFormed, AllServed, Possible, Next;
    if calls != [] {
      NextKeeps(c, calls[0]);
      RunKeeps(Next(c, calls[0]), calls[1..]);
    }
  }

  /** After any run of merges, from the empty list of conversations on, the next merge puts the given PNI
      on its result, and in the service id slot too when there is no ACI: the exception does not arise. */
  lemma PniAlwaysServes(c: Controller, calls: seq<Call>, m: Call)
    requires WellFormed(c) && AllServed(c.models) && Runs(c, calls) && Possible(After(c, calls), m)
    requires m.input.pni.Some?
    ensures var d := After(c, calls);
            && FoundKnown(d, m.input) && !LeftAsFound(d, m.input) && Merge(d, m.input, m.newRef).Some?
            && var r := Merge(d, m.input, m.newRef).value;
               && r.conversation in r.ctl.models
               && var a := r.ctl.models[r.conversation];
                  a.pni == m.input.pni && (a.serviceId == a.pni || a.HasAci())
  {
    hide WellFormed, Controller.Get, Merge, Runs, After, HandedOver;
    RunKeeps(c, calls);
    var d := After(c, calls);
    MergeIsCorrect(d, m.input, m.newRef);
    if d.Find(m.input.pni).Some? { PniFound(d, m.input); }
  }

  lemma PniFound(c: Controller, input: Input)
    requires WellFormed(c) && AllServed(c.models) && input.Valid() && c.Find(input.pni).Some?
    ensures c.Find(input.pni).value in c.models && c.models[c.Find(input.pni).value].serviceId.Some?
  {
    hide Indexed, Sound, Controller.Get;
    GetExact(c, input.pni.value);
    TypedIn(c, c.Find(input.pni).value);
  }

  // ---------- where the run starts ----------

  const NOBODY := Controller([], map[], map[], map[], map[], map[], map[])

  /** One contact, stored with a PNI and an empty service id. */
  const STORED_SO := Controller([0], map[0 := Attrs(None, None, Some(Pni(1)), None)],
                                map[], map[], map[Pni(1) := 0], map[], map[Local(0) := 0])

  lemma NobodyIsWellFormed()
    ensures WellFormed(NOBODY) && AllServed(NOBODY.models)
  {
  }

  lemma StoredSoIsIndexed()
    ensures Indexed(STORED_SO)
  {
    assert STORED_SO.models[0] == Attrs(None, None, Some(Pni(1)), None);
  }

  lemma StoredSoIsSound()
    ensures Sound(STORED_SO.models)
  {
  }

  /** The exception is real for a contact that was stored without service id: a merge for its PNI finds it
      and leaves it as it is. */
  lemma LeftAsFoundHappens(newRef: Ref)
    requires newRef != 0
    ensures WellFormed(STORED_SO)
    ensures var input := Input(None, None, Some(Pni(1)));
            && input.Valid() && FoundKnown(STORED_SO, input) && LeftAsFound(STORED_SO, input)
            && Merge(STORED_SO, input, newRef) == Some(Merged(STORED_SO, 0, []))
  {
    hide Indexed, Sound, TakeOver, AddToLookup, ApplyChange;
    StoredSoIsIndexed();
    StoredSoIsSound();
  }
}
