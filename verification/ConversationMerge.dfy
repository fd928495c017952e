/** `maybeMergeContacts`: up to three identifiers that belong to one contact, and the up to three
    conversations that are found under them. */
module ConversationMerge {
  import opened Options
  import opened Conversations

  // ---------- creating a conversation ----------

  /** An entry that is there already stays when its conversation has a value in the slot `keepIf`. */
  function Entered(models: Models, index: Lookup, id: Option<Ident>, keepIf: Key, r: Ref): Lookup {
    if id.None? then index
    else if id.value in index && index[id.value] in models && Slot(models[index[id.value]], keepIf).Some? then index
    else index[id.value := r]
  }

  /** `#addToLookup` */
  function AddToLookup(c: Controller, r: Ref, a: Attrs): Controller {
    c.(byId := Entered(c.models, c.byId, Some(Local(r)), ServiceId, r),
       byE164 := Entered(c.models, c.byE164, a.e164, ServiceId, r),
       byServiceId := Entered(c.models, c.byServiceId, a.serviceId, E164, r),
       byPni := Entered(c.models, c.byPni, a.pni, ServiceId, r),
       byGroupId := if a.GroupId().Some? then c.byGroupId[a.GroupId().value := r] else c.byGroupId)
  }

  /** A conversation is entered under each of its identifiers, unless another one is there already that has a
      service id, or for the service id one that has a phone number; all other entries stay. */
  lemma EnteredExactly(c: Controller, r: Ref, a: Attrs, id: Ident)
    ensures var d := AddToLookup(c, r, a);
            && Found(d.byId, id) == (
                 if id == Local(r) && !(id in c.byId && c.byId[id] in c.models && c.models[c.byId[id]].serviceId.Some?)
                 then Some(r) else Found(c.byId, id))
            && Found(d.byE164, id) == (
                 if a.e164 == Some(id)
                    && !(id in c.byE164 && c.byE164[id] in c.models && c.models[c.byE164[id]].serviceId.Some?)
                 then Some(r) else Found(c.byE164, id))
            && Found(d.byServiceId, id) == (
                 if a.serviceId == Some(id)
                    && !(id in c.byServiceId && c.byServiceId[id] in c.models && c.models[c.byServiceId[id]].e164.Some?)
                 then Some(r) else Found(c.byServiceId, id))
            && Found(d.byPni, id) == (
                 if a.pni == Some(id) && !(id in c.byPni && c.byPni[id] in c.models && c.models[c.byPni[id]].serviceId.Some?)
                 then Some(r) else Found(c.byPni, id))
            && Found(d.byGroupId, id) == if a.GroupId() == Some(id) then Some(r) else Found(c.byGroupId, id)
  {
  }

  function Found(index: Lookup, id: Ident): Option<Ref> { if id in index then Some(index[id]) else None }

  function AddConversation(c: Controller, r: Ref, a: Attrs): Controller {
    AddToLookup(c, r, a).(list := c.list + [r], models := c.models[r := a])
  }

  /** The attributes of a new private conversation; `extra` are its additional initial properties. */
  function NewAttrs(id: Ident, extra: Option<(Option<Ident>, Option<Ident>)>): Attrs {
    var service := if id.Aci? || id.Pni? then Some(id) else None;
    var e164 := if extra.Some? then extra.value.0 else if id.Aci? || id.Pni? then None else Some(id);
    Attrs(service, e164, if extra.Some? then extra.value.1 else None, None)
  }

  /** `newRef` is the local id that would be generated. */
  function GetOrCreate(c: Controller, id: Ident, extra: Option<(Option<Ident>, Option<Ident>)>, newRef: Ref)
    : (Controller, Ref)
  {
    if c.Get(id).Some? then (c, c.Get(id).value)
    else (AddConversation(c, newRef, NewAttrs(id, extra)), newRef)
  }

  /** What is not found is created, with the identifier in the slot of its kind, and with the phone number and
      the PNI given beside it, if they are. */
  lemma CreatedExactly(c: Controller, id: Ident, extra: Option<(Option<Ident>, Option<Ident>)>, newRef: Ref)
    ensures var (d, r) := GetOrCreate(c, id, extra, newRef);
            if c.Get(id).Some? then d == c && Some(r) == c.Get(id)
            else
              var isService := id.Aci? || id.Pni?;
              && r == newRef && d.list == c.list + [newRef]
              && d.models == c.models[newRef := Attrs(
                   if isService then Some(id) else None,
                   if extra.Some? then extra.value.0 else if isService then None else Some(id),
                   if extra.Some? then extra.value.1 else None, None)]
  {
  }

  lemma EntryAdded(models: Models, key: Key, index: Lookup, r: Ref, a: Attrs)
    requires Agrees(models, key, index) && r !in models && Free(models, r, Slot(a, key))
    ensures Slot(a, key).Some? ==> Slot(a, key).value !in index
    ensures Agrees(models[r := a], key, if Slot(a, key).Some? then index[Slot(a, key).value := r] else index)
  {
    if Slot(a, key).Some? && Slot(a, key).value in index {
      assert models[index[Slot(a, key).value]].Holds(Slot(a, key).value);
    }
  }

  lemma ListExtended(c: Controller, r: Ref, a: Attrs)
    requires Listed(c.list, c.models, c.byId) && GroupsAgree(c.models, c.byGroupId) && r !in c.models && a.group.None?
    ensures Local(r) !in c.byId
    ensures Listed(c.list + [r], c.models[r := a], c.byId[Local(r) := r])
    ensures GroupsAgree(c.models[r := a], c.byGroupId)
  {
    assert forall q :: q in c.list + [r] <==> q in c.list || q == r;
  }

  lemma AddKeepsWellFormed(c: Controller, r: Ref, a: Attrs)
    requires WellFormed(c) && r !in c.models && a.group.None? && Takes(c.models, r, a)
    ensures WellFormed(AddConversation(c, r, a))
  {
    hide Sound, Agrees, GroupsAgree, Listed, Free;
    EntryAdded(c.models, E164, c.byE164, r, a);
    EntryAdded(c.models, ServiceId, c.byServiceId, r, a);
    EntryAdded(c.models, PniKey, c.byPni, r, a);
    ListExtended(c, r, a);
    TakesKeepsSound(c.models, r, a);
  }

  // ---------- lookups in a well-formed controller ----------

  predicate IsContactId(v: Ident) { v.Aci? || v.Pni? || v.Phone? }

  lemma NotInIndex(models: Models, key: Key, index: Lookup, v: Ident)
    requires Agrees(models, key, index) && v in index
    ensures index[v] in models && models[index[v]].Holds(v) && Slot(models[index[v]], key) == Some(v)
  {
  }

  lemma GetHolds(c: Controller, v: Ident)
    requires WellFormed(c) && IsContactId(v)
    ensures v !in c.byId && v !in c.byGroupId
    ensures c.Get(v).Some? ==> c.Get(v).value in c.models && c.models[c.Get(v).value].Holds(v)
  {
    if v in c.byE164 { NotInIndex(c.models, E164, c.byE164, v); }
    if v in c.byServiceId { NotInIndex(c.models, ServiceId, c.byServiceId, v); }
    if v in c.byPni { NotInIndex(c.models, PniKey, c.byPni, v); }
  }

  lemma HolderIsIndexed(c: Controller, v: Ident, q: Ref)
    requires Indexed(c) && q in c.models && c.models[q].Holds(v)
    ensures c.Get(v).Some?
  {
    assert v in c.byE164 || v in c.byServiceId || v in c.byPni;
  }

  /** `get` finds the conversation that holds the identifier, and nothing when none does. */
  lemma GetExact(c: Controller, v: Ident)
    requires WellFormed(c) && IsContactId(v)
    ensures c.Get(v).Some? ==> c.Get(v).value in c.models && c.models[c.Get(v).value].Holds(v)
    ensures c.Get(v).None? ==> forall q | q in c.models :: !c.models[q].Holds(v)
    ensures forall q | q in c.models && c.models[q].Holds(v) :: c.Get(v) == Some(q)
  {
    hide Indexed, Controller.Get;
    GetHolds(c, v);
    forall q | q in c.models && c.models[q].Holds(v)
      ensures c.Get(v) == Some(q)
    {
      HolderIsIndexed(c, v, q);
    }
  }

  // ---------- the merge ----------

  datatype Item = Item(key: Key, value: Ident)

  /** `merged` records what is handed to `mergeOldAndNew`, as (current, obsolete). */
  datatype MergeState = MergeState(ctl: Controller, target: Option<Ref>, unused: seq<Item>, merged: seq<(Ref, Ref)>)
  {
    predicate TargetKnown() { target.Some? ==> target.value in ctl.models }
  }

  function Give(c: Controller, r: Ref, item: Item): (d: Controller)
    requires r in c.models
    ensures d.models == c.models[r := Changed(c.models[r], ChangeOf(item.key, Some(item.value)))]
  {
    ApplyChange(c, r, ChangeOf(item.key, Some(item.value)))
  }

  function GiveAll(c: Controller, r: Ref, items: seq<Item>): (d: Controller)
    requires r in c.models
    ensures d.models.Keys == c.models.Keys
    decreases |items|
  {
    if items == [] then c else GiveAll(Give(c, r, items[0]), r, items[1..])
  }

  /** Whether a match can become the target although it was not found by `item`. */
  predicate CanTake(a: Attrs, item: Item, pni: Option<Ident>) {
    || Slot(a, item.key).None?
    || (item.key == ServiceId && a.serviceId == pni)
    || (item.key == ServiceId && a.serviceId == a.pni)
  }

  /** The values found nowhere so far go to the target, which is chosen now if need be. */
  function UseUnused(m: MergeState, found: Ref, pni: Option<Ident>, newRef: Ref): (n: MergeState)
    requires found in m.ctl.models && m.TargetKnown()
    ensures n.TargetKnown() && n.unused == [] && m.ctl.models.Keys <= n.ctl.models.Keys
  {
    if m.unused == [] then m
    else
      var chosen :=
        if m.target.Some? then (m.ctl, m.target.value)
        else if CanTake(m.ctl.models[found], m.unused[0], pni) then (m.ctl, found)
        else GetOrCreate(m.ctl, m.unused[0].value, None, newRef);
      if chosen.1 !in chosen.0.models then m.(unused := [])
      else m.(ctl := GiveAll(chosen.0, chosen.1, m.unused), target := Some(chosen.1), unused := [])
  }

  /** What a match that is not the target loses. */
  function Loss(a: Attrs, key: Key, pni: Option<Ident>): Change {
    var change := ChangeOf(key, None);
    if key != ServiceId && a.serviceId == pni then change.(serviceId := Put(None)) else change
  }

  function TakeOver(m: MergeState, item: Item, found: Ref, pni: Option<Ident>): (n: MergeState)
    requires found in m.ctl.models && m.target.Some? && m.TargetKnown()
    ensures n.TargetKnown() && n.target == m.target && n.ctl.models.Keys == m.ctl.models.Keys
  {
    var c1 := ApplyChange(m.ctl, found, Loss(m.ctl.models[found], item.key, pni));
    m.(ctl := Give(c1, m.target.value, item),
       merged := if c1.models[found].IsEmpty() then m.merged + [(m.target.value, found)] else m.merged)
  }

  function Process(m: MergeState, key: Key, value: Option<Ident>, found: Option<Ref>, pni: Option<Ident>, newRef: Ref)
    : (n: MergeState)
    requires m.TargetKnown() && (found.Some? ==> found.value in m.ctl.models)
    ensures n.TargetKnown() && m.ctl.models.Keys <= n.ctl.models.Keys
  {
    if value.None? then m
    else
      var item := Item(key, value.value);
      if found.None? then
        if m.target.Some? then m.(ctl := Give(m.ctl, m.target.value, item))
        else m.(unused := m.unused + [item])
      else
        var m1 := UseUnused(m, found.value, pni, newRef);
        if m1.target.None? then m1.(target := found)
        else if m1.target != found then TakeOver(m1, item, found.value, pni)
        else if Slot(m1.ctl.models[found.value], key).None? then m1.(ctl := Give(m1.ctl, found.value, item))
        else m1
  }

  datatype Input = Input(aci: Option<Ident>, e164: Option<Ident>, pni: Option<Ident>) {
    predicate Valid() {
      && (aci.Some? ==> aci.value.Aci?) && (e164.Some? ==> e164.value.Phone?) && (pni.Some? ==> pni.value.Pni?)
    }
  }

  ghost predicate FoundKnown(c: Controller, input: Input) {
    && (c.Find(input.aci).Some? ==> c.Find(input.aci).value in c.models)
    && (c.Find(input.e164).Some? ==> c.Find(input.e164).value in c.models)
    && (c.Find(input.pni).Some? ==> c.Find(input.pni).value in c.models)
  }

  /** The three matches are looked up before anything changes, then processed in this order. */
  function AfterAci(c: Controller, input: Input, newRef: Ref): (m: MergeState)
    requires FoundKnown(c, input)
    ensures m.TargetKnown() && c.models.Keys <= m.ctl.models.Keys
  {
    Process(MergeState(c, None, [], []), ServiceId, input.aci, c.Find(input.aci), input.pni, newRef)
  }

  function AfterE164(c: Controller, input: Input, newRef: Ref): (m: MergeState)
    requires FoundKnown(c, input)
    ensures m.TargetKnown() && c.models.Keys <= m.ctl.models.Keys
  {
    Process(AfterAci(c, input, newRef), E164, input.e164, c.Find(input.e164), input.pni, newRef)
  }

  function AfterPni(c: Controller, input: Input, newRef: Ref): (m: MergeState)
    requires FoundKnown(c, input)
    ensures m.TargetKnown() && c.models.Keys <= m.ctl.models.Keys
  {
    Process(AfterE164(c, input, newRef), PniKey, input.pni, c.Find(input.pni), input.pni, newRef)
  }

  datatype Merged = Merged(ctl: Controller, conversation: Ref, merged: seq<(Ref, Ref)>)

  /** None stands for the error when no identifier is given. */
  function Merge(c: Controller, input: Input, newRef: Ref): Option<Merged>
    requires FoundKnown(c, input)
  {
    if input.aci.None? && input.e164.None? && input.pni.None? then None
    else
      var m := AfterPni(c, input, newRef);
      if m.target.Some? then Some(Merged(m.ctl, m.target.value, m.merged))
      else
        var id := if input.aci.Some? then input.aci.value
                  else if input.pni.Some? then input.pni.value else input.e164.value;
        var created := GetOrCreate(m.ctl, id, Some((input.e164, input.pni)), newRef);
        Some(Merged(created.0, created.1, m.merged))
  }

  // ---------- what the steps do to a well-formed controller ----------

  predicate Fits(item: Item) {
    match item.key
    case ServiceId => item.value.Aci?
    case E164 => item.value.Phone?
    case PniKey => item.value.Pni?
  }

  lemma GiveKeepsWellFormed(c: Controller, r: Ref, item: Item)
    requires WellFormed(c) && r in c.models && Fits(item) && Free(c.models, r, Some(item.value))
    ensures WellFormed(Give(c, r, item)) && Give(c, r, item).list == c.list
  {
    OwnIsFree(c.models, r);
    ApplyKeepsWellFormed(c, r, ChangeOf(item.key, Some(item.value)));
  }

  lemma OwnIsFree(models: Models, r: Ref)
    requires Sound(models) && r in models
    ensures Takes(models, r, models[r])
  {
    var a := models[r];
    assert a.serviceId.Some? ==> a.Holds(a.serviceId.value);
    assert a.e164.Some? ==> a.Holds(a.e164.value);
    assert a.pni.Some? ==> a.Holds(a.pni.value);
  }

  lemma LossKeepsWellFormed(c: Controller, r: Ref, key: Key, pni: Option<Ident>)
    requires WellFormed(c) && r in c.models
    ensures var d := ApplyChange(c, r, Loss(c.models[r], key, pni)); WellFormed(d) && d.list == c.list
  {
    OwnIsFree(c.models, r);
    ApplyKeepsWellFormed(c, r, Loss(c.models[r], key, pni));
  }

  lemma LossGivesUp(a: Attrs, item: Item, pni: Option<Ident>)
    requires a.WellTyped() && Fits(item) && item.key != ServiceId && (item.key == PniKey ==> pni == Some(item.value))
    ensures !Changed(a, Loss(a, item.key, pni)).Holds(item.value)
  {
  }

  /** A match that is not the target gives the identifier up, and the target gets it. */
  lemma TakeOverResult(m: MergeState, item: Item, found: Ref, pni: Option<Ident>)
    requires WellFormed(m.ctl) && m.target.Some? && m.TargetKnown() && found in m.ctl.models && found != m.target.value
    requires Fits(item) && item.key != ServiceId && (item.key == PniKey ==> pni == Some(item.value))
    requires forall q | q in m.ctl.models && q != found && q != m.target.value :: !m.ctl.models[q].Holds(item.value)
    ensures var n := TakeOver(m, item, found, pni);
            && WellFormed(n.ctl) && n.ctl.list == m.ctl.list
  {
    hide Indexed, Sound, Changed, Attrs.Holds, ApplyChange, Loss, Attrs.WellTyped;
    var a := m.ctl.models[found];
    TypedIn(m.ctl, found);
    LossGivesUp(a, item, pni);
    LossKeepsWellFormed(m.ctl, found, item.key, pni);
    var c1 := ApplyChange(m.ctl, found, Loss(a, item.key, pni));
    GiveKeepsWellFormed(c1, m.target.value, item);
  }

  lemma TypedIn(c: Controller, r: Ref)
    requires WellFormed(c) && r in c.models
    ensures c.models[r].WellTyped()
  {
  }

  /** The attributes of the target once the unused values are on it. */
  function GivenAll(a: Attrs, items: seq<Item>): Attrs
    decreases |items|
  {
    if items == [] then a else GivenAll(Changed(a, ChangeOf(items[0].key, Some(items[0].value))), items[1..])
  }

  lemma {:induction false} GiveAllResult(c: Controller, r: Ref, items: seq<Item>)
    requires WellFormed(c) && r in c.models
    requires forall i | i in items :: Fits(i) && Free(c.models, r, Some(i.value))
    ensures WellFormed(GiveAll(c, r, items)) && GiveAll(c, r, items).list == c.list
    ensures GiveAll(c, r, items).models == c.models[r := GivenAll(c.models[r], items)]
    decreases |items|
  {
    hide Indexed, Sound, Attrs.Holds;
    if items == [] {
      assert c.models[r := c.models[r]] == c.models;
    } else {
      assert items[0] in items;
      GiveKeepsWellFormed(c, r, items[0]);
      var d := Give(c, r, items[0]);
      forall i | i in items[1..]
        ensures Fits(i) && Free(d.models, r, Some(i.value))
      {
        assert i in items;
      }
      GiveAllResult(d, r, items[1..]);
    }
  }

  /** The values given but found nowhere, before the PNI is looked at. */
  function Unmatched(c: Controller, input: Input): seq<Item> {
    (if input.aci.Some? && c.Get(input.aci.value).None? then [Item(ServiceId, input.aci.value)] else [])
    + (if input.e164.Some? && c.Get(input.e164.value).None? then [Item(E164, input.e164.value)] else [])
  }

  lemma UseUnusedResult(c: Controller, unused: seq<Item>, found: Ref, pni: Option<Ident>, newRef: Ref)
    requires WellFormed(c) && found in c.models && newRef !in c.models
    requires unused != [] && forall i | i in unused :: Fits(i) && i.key != PniKey && c.Get(i.value).None?
    ensures var n := UseUnused(MergeState(c, None, unused, []), found, pni, newRef);
            && WellFormed(n.ctl) && n.unused == [] && n.merged == []
            && if CanTake(c.models[found], unused[0], pni)
               then n.target == Some(found) && n.ctl.list == c.list
                    && n.ctl.models == c.models[found := GivenAll(c.models[found], unused)]
               else n.target == Some(newRef) && n.ctl.list == c.list + [newRef]
                    && n.ctl.models == c.models[newRef := GivenAll(NewAttrs(unused[0].value, None), unused)]
  {
    assert unused[0] in unused;
    forall i | i in unused
      ensures IsContactId(i.value) && forall q | q in c.models :: !c.models[q].Holds(i.value)
    {
      GetExact(c, i.value);
    }
    hide Indexed, Sound, Controller.Get;
    if CanTake(c.models[found], unused[0], pni) {
      GiveAllResult(c, found, unused);
    } else {
      CreateForUnused(c, unused, newRef);
    }
  }

  lemma CreateForUnused(c: Controller, unused: seq<Item>, newRef: Ref)
    requires WellFormed(c) && newRef !in c.models && unused != []
    requires forall i | i in unused :: Fits(i) && i.key != PniKey && forall q | q in c.models :: !c.models[q].Holds(i.value)
    ensures var d := AddConversation(c, newRef, NewAttrs(unused[0].value, None));
            && WellFormed(GiveAll(d, newRef, unused)) && GiveAll(d, newRef, unused).list == c.list + [newRef]
            && GiveAll(d, newRef, unused).models
               == c.models[newRef := GivenAll(NewAttrs(unused[0].value, None), unused)]
  {
    hide Indexed, Sound, GivenAll, GiveAll, AddToLookup;
    assert unused[0] in unused;
    var a := NewAttrs(unused[0].value, None);
    AddKeepsWellFormed(c, newRef, a);
    var d := AddConversation(c, newRef, a);
    GiveAllResult(d, newRef, unused);
    assert d.models[newRef := GivenAll(a, unused)] == c.models[newRef := GivenAll(a, unused)];
  }
}
