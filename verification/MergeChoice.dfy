/** The choice of the conversation that a merge results in, on the identifiers themselves, and what a merge
    never overwrites. */
module MergeChoice {
  import opened Options
  import opened Conversations
  import opened ConversationMerge
  import opened MergeTheorem
  import opened MergeEffects

  /** `q` holds the identifier. */
  predicate Has(c: Controller, id: Option<Ident>, q: Ref) { q in c.models && id.Some? && c.models[q].Holds(id.value) }

  ghost predicate Nobody(c: Controller, id: Option<Ident>) { forall q | q in c.models :: !Has(c, id, q) }

  lemma FoundHas(c: Controller, id: Option<Ident>)
    requires WellFormed(c) && (id.Some? ==> IsContactId(id.value))
    ensures c.Find(id).None? <==> Nobody(c, id)
    ensures forall q: Ref :: c.Find(id) == Some(q) <==> Has(c, id, q)
  {
    hide WellFormed, Controller.Get;
    if id.Some? { GetExact(c, id.value); }
  }

  /** The existing conversation that becomes the result, if one does: the one that holds the ACI; otherwise
      the one that holds the phone number, unless an ACI is given and it has another; otherwise the one
      that holds the PNI, unless an ACI is given and it has another, or no ACI but a phone number is given
      and it has another. */
  ghost predicate Takes(c: Controller, input: Input, t: Ref) {
    || Has(c, input.aci, t)
    || (Nobody(c, input.aci) && Has(c, input.e164, t) && (input.aci.Some? ==> !c.models[t].HasAci()))
    || (Nobody(c, input.aci) && Nobody(c, input.e164) && Has(c, input.pni, t)
        && (input.aci.Some? ==> !c.models[t].HasAci())
        && (input.aci.None? && input.e164.Some? ==> c.models[t].e164.None?))
  }

  lemma CanTakeExactly(a: Attrs, item: Item, pni: Option<Ident>)
    requires a.WellTyped() && Fits(item) && item.key != PniKey && (pni.Some? ==> pni.value.Pni?)
    ensures CanTake(a, item, pni) <==> if item.key == ServiceId then !a.HasAci() else a.e164.None?
  {
  }

  /** A conversation is the result if and only if it is that one; and when there is none, a new
      conversation is. */
  lemma ResultExactly(c: Controller, input: Input, newRef: Ref, q: Ref)
    requires Ready(c, input, newRef) && Merge(c, input, newRef).Some?
    ensures var t := Merge(c, input, newRef).value.conversation;
            && (q in c.models ==> (t == q <==> Takes(c, input, q)))
            && (t !in c.models ==> t == newRef)
  {
    hide WellFormed, Controller.Get, Merge, CanTake;
    ResultIsChosen(c, input, newRef);
    FoundHas(c, input.aci);
    FoundHas(c, input.e164);
    FoundHas(c, input.pni);
    var first := if c.Find(input.e164).Some? then c.Find(input.e164) else c.Find(input.pni);
    if first.Some? {
      TypedIn(c, first.value);
      var a := c.models[first.value];
      if input.aci.Some? { CanTakeExactly(a, Item(ServiceId, input.aci.value), input.pni); }
      if input.e164.Some? { CanTakeExactly(a, Item(E164, input.e164.value), input.pni); }
    }
  }

  /** No merge takes an ACI from a conversation or puts another one in its place; and without an ACI given,
      none replaces the phone number of its result. Other conversations lose a number to the result only. */
  lemma NothingOverwritten(c: Controller, input: Input, newRef: Ref, q: Ref)
    requires Ready(c, input, newRef) && Merge(c, input, newRef).Some? && q in c.models
    ensures var r := Merge(c, input, newRef).value;
            && q in r.ctl.models
            && (c.models[q].HasAci() ==> r.ctl.models[q].serviceId == c.models[q].serviceId)
            && (c.models[q].e164.Some? && r.ctl.models[q].e164 != c.models[q].e164 ==>
                  if q == r.conversation then input.aci.Some? && input.e164.Some? && c.models[q].e164 != input.e164
                  else r.ctl.models[q].e164.None? && c.models[q].e164 == input.e164
                       && r.conversation in r.ctl.models && r.ctl.models[r.conversation].e164 == input.e164)
  {
    hide WellFormed, Controller.Get, Merge, HandedOver;
    MergeIsCorrect(c, input, newRef);
    OthersLoseOnly(c, input, newRef);
    ResultKeepsRest(c, input, newRef);
    ResultExactly(c, input, newRef, q);
    FoundHas(c, input.e164);
    FoundHas(c, input.pni);
    TypedIn(c, q);
    if Has(c, input.e164, q) { HeldInSlot(c.models[q], input.e164.value); }
    if Has(c, input.aci, q) { HeldInSlot(c.models[q], input.aci.value); }
  }

  lemma HeldInSlot(a: Attrs, v: Ident)
    requires a.WellTyped() && a.Holds(v)
    ensures v.Phone? ==> a.e164 == Some(v)
    ensures v.Aci? ==> a.serviceId == Some(v)
  {
  }
}
