/** The controller object, which keeps the conversations and their lookups in fields and updates
    them in place. */
module ConversationController {
  import opened Options
  import opened Conversations
  import opened ConversationMerge
  import opened MergeTheorem
  import opened ConflictScan
  import opened ConflictSurvivors

  /** Lookups lead to existing conversations only. */
  ghost predicate Closed(c: Controller) {
    && (forall id | id in c.byE164 :: c.byE164[id] in c.models)
    && (forall id | id in c.byServiceId :: c.byServiceId[id] in c.models)
    && (forall id | id in c.byPni :: c.byPni[id] in c.models)
    && (forall id | id in c.byGroupId :: c.byGroupId[id] in c.models)
    && (forall id | id in c.byId :: c.byId[id] in c.models)
  }

  lemma WellFormedIsClosed(c: Controller)
    requires WellFormed(c)
    ensures Closed(c)
  {
    hide Sound;
    forall id | id in c.byE164 ensures c.byE164[id] in c.models { NotInIndex(c.models, E164, c.byE164, id); }
    forall id | id in c.byPni ensures c.byPni[id] in c.models { NotInIndex(c.models, PniKey, c.byPni, id); }
  }

  /** The merge before the match with index `i`. */
  function Stage(c: Controller, input: Input, newRef: Ref, i: nat): MergeState
    requires FoundKnown(c, input)
  {
    if i == 0 then MergeState(c, None, [], [])
    else if i == 1 then AfterAci(c, input, newRef)
    else if i == 2 then AfterE164(c, input, newRef)
    else AfterPni(c, input, newRef)
  }

  /** The result of a merge, and all that holds of it. */
  ghost predicate MergedInto(c: Controller, input: Input, newRef: Ref, d: Controller, t: Ref, merged: seq<(Ref, Ref)>) {
    && FoundKnown(c, input) && Merge(c, input, newRef) == Some(Merged(d, t, merged))
    && Placed(c, input, newRef, d, t) && c.models.Keys <= d.models.Keys && HandedOver(c, input, d, t, merged)
  }

  lemma MergeIsMergedInto(c: Controller, input: Input, newRef: Ref)
    requires WellFormed(c) && input.Valid() && newRef !in c.models
    requires input.aci.Some? || input.e164.Some? || input.pni.Some?
    ensures FoundKnown(c, input) && Merge(c, input, newRef).Some?
    ensures var r := Merge(c, input, newRef).value; MergedInto(c, input, newRef, r.ctl, r.conversation, r.merged)
  {
    hide WellFormed, Controller.Get, Merge, HandedOver;
    MergeIsCorrect(c, input, newRef);
  }

  /** The identifier under which a conversation is created when nothing is found. */
  function Precedence(input: Input): Ident
    requires input.aci.Some? || input.e164.Some? || input.pni.Some?
  {
    if input.aci.Some? then input.aci.value else if input.pni.Some? then input.pni.value else input.e164.value
  }

  lemma MergeLastStep(c: Controller, input: Input, newRef: Ref)
    requires FoundKnown(c, input) && (input.aci.Some? || input.e164.Some? || input.pni.Some?)
    ensures var m := AfterPni(c, input, newRef);
            Merge(c, input, newRef)
            == if m.target.Some? then Some(Merged(m.ctl, m.target.value, m.merged))
               else var made := GetOrCreate(m.ctl, Precedence(input), Some((input.e164, input.pni)), newRef);
                    Some(Merged(made.0, made.1, m.merged))
  {
    hide AfterPni, GetOrCreate, Controller.Get;
  }

  lemma HalfwayIsKnown(s: Scan, original: seq<Ref>, i: nat)
    requires Halfway(s, original, i)
    ensures s.Known()
  {
    hide ScanInv, BestKept;
  }

  lemma HalfwayKnows(s: Scan, original: seq<Ref>, i: nat)
    requires Halfway(s, original, i) && 0 < i
    ensures original[i - 1] in s.ctl.models
  {
    hide ScanInv, BestKept;
  }

  class ConversationController {
    var conversations: seq<Ref>
    var models: Models
    var byE164: Lookup
    var byServiceId: Lookup
    var byPni: Lookup
    var byGroupId: Lookup
    var byId: Lookup

    ghost function View(): Controller
      reads this
    {
      Controller(conversations, models, byE164, byServiceId, byPni, byGroupId, byId)
    }

    constructor (initial: Controller)
      ensures View() == initial
    {
      conversations, models := initial.list, initial.models;
      byE164, byServiceId, byPni := initial.byE164, initial.byServiceId, initial.byPni;
      byGroupId, byId := initial.byGroupId, initial.byId;
    }

    method Get(id: Ident) returns (r: Option<Ref>)
      ensures r == View().Get(id)
    {
      if id in byE164 { return Some(byE164[id]); }
      if id in byServiceId { return Some(byServiceId[id]); }
      if id in byPni { return Some(byPni[id]); }
      if id in byGroupId { return Some(byGroupId[id]); }
      if id in byId { return Some(byId[id]); }
      return None;
    }

    /** `updateServiceId`, `updateE164` and `updatePni`, each of which reports to `idUpdated`. */
    method UpdateSlot(key: Key, r: Ref, v: Option<Ident>)
      requires r in models && Closed(View())
      modifies this
      ensures View() == Update(old(View()), key, r, v) && Closed(View())
    {
      var was := Slot(models[r], key);
      if v == was {
        return;
      }
      models := models[r := WithSlot(models[r], key, v)];
      match key {
        case ServiceId => byServiceId := IdUpdated(byServiceId, r, was, v);
        case E164 => byE164 := IdUpdated(byE164, r, was, v);
        case PniKey => byPni := IdUpdated(byPni, r, was, v);
      }
    }

    method ApplyChangeToConversation(r: Ref, suggested: Change)
      requires r in models && Closed(View())
      modifies this
      ensures View() == ApplyChange(old(View()), r, suggested) && Closed(View())
    {
      hide Update, Completed;
      var change := Completed(models[r], suggested);
      if change.serviceId.Put? {
        UpdateSlot(ServiceId, r, change.serviceId.v);
      }
      if change.e164.Put? {
        UpdateSlot(E164, r, change.e164.v);
      }
      if change.pni.Put? {
        UpdateSlot(PniKey, r, change.pni.v);
      }
    }

    method GetOrCreatePrivate(id: Ident, extra: Option<(Option<Ident>, Option<Ident>)>, newRef: Ref) returns (r: Ref)
      requires Closed(View())
      modifies this
      ensures (View(), r) == GetOrCreate(old(View()), id, extra, newRef) && Closed(View()) && r in models
      ensures old(models).Keys <= models.Keys
    {
      var found := Get(id);
      if found.Some? {
        return found.value;
      }
      var a := NewAttrs(id, extra);
      AddToLookups(newRef, a);
      conversations := conversations + [newRef];
      models := models[newRef := a];
      return newRef;
    }

    method AddEntry(index: Lookup, id: Option<Ident>, keepIf: Key, r: Ref) returns (added: Lookup)
      ensures added == Entered(models, index, id, keepIf, r)
    {
      if id.None? {
        return index;
      }
      if id.value in index {
        var existing := index[id.value];
        if existing in models && Slot(models[existing], keepIf).Some? {
          return index;
        }
      }
      return index[id.value := r];
    }

    method AddToLookups(r: Ref, a: Attrs)
      requires a.group.None?
      modifies this
      ensures View() == AddToLookup(old(View()), r, a)
    {
      hide Entered;
      byId := AddEntry(byId, Some(Local(r)), ServiceId, r);
      byE164 := AddEntry(byE164, a.e164, ServiceId, r);
      byServiceId := AddEntry(byServiceId, a.serviceId, E164, r);
      byPni := AddEntry(byPni, a.pni, ServiceId, r);
    }

    /** The callback over `unusedMatches`: each value goes to the target, the first one chooses it. */
    method UseUnusedValues(target: Option<Ref>, unused: seq<Item>, merged: seq<(Ref, Ref)>, found: Ref,
                           pni: Option<Ident>, newRef: Ref)
      returns (chosen: Option<Ref>)
      requires found in models && Closed(View()) && (target.Some? ==> target.value in models)
      modifies this
      ensures MergeState(View(), chosen, [], merged)
           == UseUnused(MergeState(old(View()), target, unused, merged), found, pni, newRef)
      ensures Closed(View()) && (chosen.Some? ==> chosen.value in models) && old(models).Keys <= models.Keys
    {
      chosen := target;
      if unused == [] {
        return;
      }
      if chosen.None? {
        if CanTake(models[found], unused[0], pni) {
          chosen := Some(found);
        } else {
          var created := GetOrCreatePrivate(unused[0].value, None, newRef);
          chosen := Some(created);
        }
      }
      GiveEach(chosen.value, unused);
    }

    method GiveEach(r: Ref, items: seq<Item>)
      requires r in models && Closed(View())
      modifies this
      ensures View() == GiveAll(old(View()), r, items) && Closed(View())
    {
      hide ApplyChange, Closed;
      for i := 0 to |items|
        invariant r in models && Closed(View()) && GiveAll(View(), r, items[i..]) == GiveAll(old(View()), r, items)
      {
        assert items[i..][1..] == items[i + 1..];
        ApplyChangeToConversation(r, ChangeOf(items[i].key, Some(items[i].value)));
      }
    }

    /** A match that is not the target gives `item` up. */
    method TakeFrom(target: Ref, merged: seq<(Ref, Ref)>, item: Item, found: Ref, pni: Option<Ident>)
      returns (handed: seq<(Ref, Ref)>)
      requires found in models && target in models && Closed(View())
      modifies this
      ensures MergeState(View(), Some(target), [], handed)
           == TakeOver(MergeState(old(View()), Some(target), [], merged), item, found, pni)
      ensures Closed(View())
    {
      hide ApplyChange, Closed;
      var change := ChangeOf(item.key, None);
      if item.key != ServiceId && models[found].serviceId == pni {
        change := change.(serviceId := Put(None));
      }
      ApplyChangeToConversation(found, change);
      var willMerge := models[found].IsEmpty();
      ApplyChangeToConversation(target, ChangeOf(item.key, Some(item.value)));
      handed := if willMerge then merged + [(target, found)] else merged;
    }

    /** The callback over `matches`. */
    method ProcessMatch(target: Option<Ref>, unused: seq<Item>, merged: seq<(Ref, Ref)>, key: Key,
                        value: Option<Ident>, found: Option<Ref>, pni: Option<Ident>, newRef: Ref)
      returns (newTarget: Option<Ref>, newUnused: seq<Item>, newMerged: seq<(Ref, Ref)>)
      requires Closed(View()) && (target.Some? ==> target.value in models) && (found.Some? ==> found.value in models)
      modifies this
      ensures MergeState(View(), newTarget, newUnused, newMerged)
           == Process(MergeState(old(View()), target, unused, merged), key, value, found, pni, newRef)
      ensures Closed(View()) && (newTarget.Some? ==> newTarget.value in models)
    {
      hide ApplyChange, Closed, UseUnused, TakeOver;
      newTarget, newUnused, newMerged := target, unused, merged;
      if value.None? {
        return;
      }
      var item := Item(key, value.value);
      if found.None? {
        if target.Some? {
          ApplyChangeToConversation(target.value, ChangeOf(key, value));
        } else {
          newUnused := unused + [item];
        }
        return;
      }
      newTarget := UseUnusedValues(target, unused, merged, found.value, pni, newRef);
      newUnused := [];
      if newTarget.Some? && newTarget != found {
        newMerged := TakeFrom(newTarget.value, newMerged, item, found.value, pni);
      } else if newTarget.Some? && Slot(models[found.value], key).None? {
        ApplyChangeToConversation(found.value, ChangeOf(key, value));
      }
      if newTarget.None? {
        newTarget := found;
      }
    }

    /** Up to three identifiers of one contact, and up to three conversations found under them. */
    method MaybeMergeContacts(input: Input, newRef: Ref) returns (result: Option<(Ref, seq<(Ref, Ref)>)>)
      requires WellFormed(View()) && input.Valid() && newRef !in models
      modifies this
      ensures result.None? <==> input.aci.None? && input.e164.None? && input.pni.None?
      ensures result.None? ==> View() == old(View())
      ensures result.Some? ==> MergedInto(old(View()), input, newRef, View(), result.value.0, result.value.1)
    {
      hide WellFormed, Closed, Process, Controller.Get, GetOrCreate, MergedInto, Merge;
      if input.aci.None? && input.e164.None? && input.pni.None? {
        return None;
      }
      WellFormedIsClosed(View());
      MergeIsMergedInto(View(), input, newRef);
      MergeLastStep(View(), input, newRef);
      var byAci := FindMatch(input.aci);
      var byPhone := FindMatch(input.e164);
      var byPniMatch := FindMatch(input.pni);
      var matches := [(ServiceId, input.aci, byAci), (E164, input.e164, byPhone), (PniKey, input.pni, byPniMatch)];
      var target: Option<Ref>, unused: seq<Item>, merged: seq<(Ref, Ref)> := None, [], [];
      for i := 0 to |matches|
        invariant Closed(View()) && (target.Some? ==> target.value in models) && old(models).Keys <= models.Keys
        invariant MergeState(View(), target, unused, merged) == Stage(old(View()), input, newRef, i)
      {
        var (key, value, found) := matches[i];
        target, unused, merged := ProcessMatch(target, unused, merged, key, value, found, input.pni, newRef);
      }
      if target.None? {
        var created := GetOrCreatePrivate(Precedence(input), Some((input.e164, input.pni)), newRef);
        target := Some(created);
      }
      return Some((target.value, merged));
    }

    method FindMatch(id: Option<Ident>) returns (r: Option<Ref>)
      ensures r == View().Find(id)
    {
      if id.None? {
        return None;
      }
      r := Get(id.value);
    }

    /** `#removeConversation`, with `#removeFromLookup`. */
    method Remove(r: Ref)
      requires r in models
      modifies this
      ensures View() == RemoveConversation(old(View()), r)
    {
      hide DropEntry;
      conversations := Without(conversations, r);
      var a := models[r];
      byId := DeleteEntry(byId, Some(Local(r)), r);
      byE164 := DeleteEntry(byE164, a.e164, r);
      byServiceId := DeleteEntry(byServiceId, a.serviceId, r);
      byPni := DeleteEntry(byPni, a.pni, r);
      byGroupId := DeleteEntry(byGroupId, a.GroupId(), r);
    }

    method DeleteEntry(index: Lookup, id: Option<Ident>, r: Ref) returns (rest: Lookup)
      ensures rest == DropEntry(index, id, r)
    {
      rest := index;
      if id.Some? && id.value in index && index[id.value] == r {
        rest := index - {id.value};
      }
    }

    /** `#doCombineConversations`. */
    method CombineConversations(current: Ref, obsolete: Ref)
      requires current in models && obsolete in models
      modifies this
      ensures View() == Combine(old(View()), current, obsolete)
    {
      hide RemoveConversation, Controller.Get;
      var found := Get(Local(obsolete));
      if found.None? || models[obsolete].group.Some? != models[current].group.Some? {
        return;
      }
      Remove(obsolete);
    }

    method CheckServiceId(r: Ref, seenServices: Lookup, ghost phones: Lookup, ghost groups: Lookup) returns (services: Lookup)
      requires r in models && Scan(View(), seenServices, phones, groups).Known()
      modifies this
      ensures Scan(View(), services, phones, groups) == ScanServiceId(Scan(old(View()), seenServices, phones, groups), r)
    {
      hide Combine;
      services := seenServices;
      var a := models[r];
      if a.serviceId.Some? {
        var v := a.serviceId.value;
        if v !in services {
          services := services[v := r];
        } else if a.e164.Some? {
          CombineConversations(r, services[v]);
          services := services[v := r];
        } else {
          CombineConversations(services[v], r);
        }
      }
    }

    method CheckPni(r: Ref, seenServices: Lookup, ghost phones: Lookup, ghost groups: Lookup) returns (services: Lookup)
      requires r in models && Scan(View(), seenServices, phones, groups).Known()
      modifies this
      ensures Scan(View(), services, phones, groups) == ScanPni(Scan(old(View()), seenServices, phones, groups), r)
    {
      hide Combine;
      services := seenServices;
      var a := models[r];
      if a.pni.Some? {
        var v := a.pni.value;
        if v !in services {
          services := services[v := r];
        } else if services[v] != r {
          CombineConversations(r, services[v]);
          services := services[v := r];
        }
      }
    }

    /** `split` tells the loop to go on to the next conversation. */
    method CheckE164(r: Ref, ghost services: Lookup, seenPhones: Lookup, ghost groups: Lookup)
      returns (phones: Lookup, split: bool)
      requires r in models && Scan(View(), services, seenPhones, groups).Known()
      modifies this
      ensures Scan(View(), services, phones, groups) == ScanE164(Scan(old(View()), services, seenPhones, groups), r)
      ensures split == SplitsHere(Scan(old(View()), services, seenPhones, groups), r)
    {
      hide Combine;
      phones, split := seenPhones, false;
      var a := models[r];
      if a.e164.Some? {
        var v := a.e164.value;
        if v !in phones {
          phones := phones[v := r];
        } else {
          var existing := phones[v];
          if a.serviceId.Some? && models[existing].serviceId.Some? && a.serviceId != models[existing].serviceId {
            models := models[existing := models[existing].(e164 := None)];
            phones := phones[v := r];
            return phones, true;
          }
          if a.serviceId.Some? {
            CombineConversations(r, existing);
            phones := phones[v := r];
          } else {
            CombineConversations(existing, r);
          }
        }
      }
    }

    method CheckGroup(r: Ref, ghost services: Lookup, ghost phones: Lookup, seenGroups: Lookup) returns (groups: Lookup)
      requires r in models && Scan(View(), services, phones, seenGroups).Known()
      modifies this
      ensures Scan(View(), services, phones, groups) == ScanGroup(Scan(old(View()), services, phones, seenGroups), r)
    {
      hide Combine;
      groups := seenGroups;
      var g := V2Id(models[r]);
      if g.Some? {
        if g.value !in groups {
          groups := groups[g.value := r];
        } else {
          var existing := groups[g.value];
          var was := models[existing];
          if models[r].group.value.isV2 && !(was.group.Some? && was.group.value.isV2) {
            CombineConversations(r, existing);
            groups := groups[g.value := r];
          } else {
            CombineConversations(existing, r);
          }
        }
      }
    }

    /** The body of the loop. */
    method CheckConversation(r: Ref, seenServices: Lookup, seenPhones: Lookup, seenGroups: Lookup)
      returns (services: Lookup, phones: Lookup, groups: Lookup)
      requires r in models && Scan(View(), seenServices, seenPhones, seenGroups).Known()
      modifies this
      ensures Scan(View(), services, phones, groups) == Visit(Scan(old(View()), seenServices, seenPhones, seenGroups), r)
    {
      hide ScanServiceId, ScanPni, ScanE164, ScanGroup, SplitsHere, Scan.Known;
      services := CheckServiceId(r, seenServices, seenPhones, seenGroups);
      services := CheckPni(r, services, seenPhones, seenGroups);
      var split: bool;
      phones, split := CheckE164(r, services, seenPhones, seenGroups);
      groups := seenGroups;
      if !split {
        groups := CheckGroup(r, services, phones, seenGroups);
      }
    }

    /** The backward loop over a list that shrinks under it; no index it reads is out of range. */
    method CheckForConflicts()
      requires ScanStart(View())
      modifies this
      ensures Scan(old(View()), map[], map[], map[]).Known()
      ensures View() == ScanDown(Scan(old(View()), map[], map[], map[]), |old(conversations)|).ctl
      ensures ConflictFree(View()) && OneGroupEach(old(View()), View()) && UninvolvedSurvive(old(View()), View())
    {
      hide ScanStart, Halfway, Visit, Scan.Known, ConflictFree, OneGroupEach, UninvolvedSurvive;
      ghost var c := View();
      ScanComesTo(c);
      StartIsHalfway(c);
      var services: Lookup, phones: Lookup, groups: Lookup := map[], map[], map[];
      ghost var start := Scan(c, services, phones, groups);
      var i := |conversations|;
      HalfwayIsKnown(start, c.list, i);
      while i > 0
        invariant 0 <= i <= |c.list| && Halfway(Scan(View(), services, phones, groups), c.list, i)
        invariant Scan(View(), services, phones, groups).Known()
        invariant ScanDown(Scan(View(), services, phones, groups), i) == ScanDown(start, |c.list|)
      {
        ghost var s := Scan(View(), services, phones, groups);
        HalfwayRound(s, c.list, i);
        HalfwayKnows(s, c.list, i);
        services, phones, groups := CheckConversation(conversations[i - 1], services, phones, groups);
        i := i - 1;
      }
    }
  }
}
