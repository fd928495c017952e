/** The conversation list, its five lookups, and the moves of identifiers between conversations.

    A conversation object is named by a number (`Ref`), and `models` says what its attributes are.
    Identifiers are tagged, so that phone numbers, service ids and local ids never coincide. */
module Conversations {
  import opened Options

  type Ref = nat

  datatype Ident = Aci(n: nat) | Pni(n: nat) | Phone(n: nat) | Group(n: nat) | Local(ref: Ref)

  datatype GroupInfo = GroupInfo(isV2: bool, groupId: Ident, derivedV2Id: Ident)

  /** A conversation is a group when it has group data, and private otherwise. */
  datatype Attrs = Attrs(serviceId: Option<Ident>, e164: Option<Ident>, pni: Option<Ident>, group: Option<GroupInfo>) {
    predicate IsEmpty() { serviceId.None? && e164.None? && pni.None? }

    predicate Holds(v: Ident) { serviceId == Some(v) || e164 == Some(v) || pni == Some(v) }

    predicate DisjointFrom(a: Attrs) {
      && (serviceId.Some? ==> !a.Holds(serviceId.value))
      && (e164.Some? ==> !a.Holds(e164.value))
      && (pni.Some? ==> !a.Holds(pni.value))
    }

    predicate HasAci() { serviceId.Some? && serviceId.value.Aci? }

    /** Each kind of identifier is in its own slots, and a PNI that stands in for the service id
        is in the PNI slot as well. */
    predicate WellTyped() {
      && (serviceId.Some? ==> serviceId.value.Aci? || serviceId.value.Pni?)
      && (e164.Some? ==> e164.value.Phone?)
      && (pni.Some? ==> pni.value.Pni?)
      && (serviceId.Some? && serviceId.value.Pni? ==> pni == serviceId)
      && (group.Some? ==> group.value.groupId.Group?)
    }

    function GroupId(): Option<Ident> { if group.Some? then Some(group.value.groupId) else None }
  }

  datatype Key = ServiceId | E164 | PniKey

  function Slot(a: Attrs, key: Key): Option<Ident> {
    match key
    case ServiceId => a.serviceId
    case E164 => a.e164
    case PniKey => a.pni
  }

  function WithSlot(a: Attrs, key: Key, v: Option<Ident>): Attrs {
    match key
    case ServiceId => a.(serviceId := v)
    case E164 => a.(e164 := v)
    case PniKey => a.(pni := v)
  }

  type Lookup = map<Ident, Ref>

  datatype Controller = Controller(
    list: seq<Ref>, models: map<Ref, Attrs>,
    byE164: Lookup, byServiceId: Lookup, byPni: Lookup, byGroupId: Lookup, byId: Lookup)
  {
    function Index(key: Key): Lookup {
      match key
      case ServiceId => byServiceId
      case E164 => byE164
      case PniKey => byPni
    }

    function WithIndex(key: Key, index: Lookup): Controller {
      match key
      case ServiceId => this.(byServiceId := index)
      case E164 => this.(byE164 := index)
      case PniKey => this.(byPni := index)
    }

    function Get(id: Ident): Option<Ref> {
      if id in byE164 then Some(byE164[id])
      else if id in byServiceId then Some(byServiceId[id])
      else if id in byPni then Some(byPni[id])
      else if id in byGroupId then Some(byGroupId[id])
      else if id in byId then Some(byId[id])
      else None
    }

    function Find(id: Option<Ident>): Option<Ref> {
      if id.None? then None else Get(id.value)
    }
  }

  // ---------- well-formed controllers ----------

  type Models = map<Ref, Attrs>

  ghost predicate Listed(list: seq<Ref>, models: Models, byId: Lookup) {
    && (forall r :: r in list <==> r in models)
    && (forall i, j :: 0 <= i < j < |list| ==> list[i] != list[j])
    && (forall r | r in models :: Local(r) in byId && byId[Local(r)] == r)
    && (forall id | id in byId :: id.Local? && id.ref in models)
  }

  /** A lookup and the slot it serves say the same, in both directions. */
  ghost predicate Agrees(models: Models, key: Key, index: Lookup) {
    && (forall r | r in models :: Slot(models[r], key).Some? ==>
          Slot(models[r], key).value in index && index[Slot(models[r], key).value] == r)
    && (forall id | id in index :: index[id] in models && Slot(models[index[id]], key) == Some(id))
  }

  ghost predicate GroupsAgree(models: Models, byGroupId: Lookup) {
    && (forall r | r in models :: models[r].GroupId().Some? ==>
          models[r].GroupId().value in byGroupId && byGroupId[models[r].GroupId().value] == r)
    && (forall id | id in byGroupId :: byGroupId[id] in models && models[byGroupId[id]].GroupId() == Some(id))
  }

  ghost predicate Indexed(c: Controller) {
    && Listed(c.list, c.models, c.byId)
    && GroupsAgree(c.models, c.byGroupId)
    && Agrees(c.models, ServiceId, c.byServiceId)
    && Agrees(c.models, E164, c.byE164)
    && Agrees(c.models, PniKey, c.byPni)
  }

  /** Each conversation's identifiers fit their slots, and no identifier belongs to two
      conversations, the serviceId and pni slots counted together. */
  ghost predicate Sound(models: Models) {
    && (forall r | r in models :: models[r].WellTyped())
    && (forall r, q | r in models && q in models && r != q :: models[r].DisjointFrom(models[q]))
  }

  ghost predicate WellFormed(c: Controller) {
    Indexed(c) && Sound(c.models)
  }

  // ---------- one slot ----------

  /** `idUpdated`: the old value leaves the lookup, the new one enters it. */
  function IdUpdated(index: Lookup, r: Ref, oldValue: Option<Ident>, newValue: Option<Ident>): Lookup {
    var cleared := if oldValue.Some? then index - {oldValue.value} else index;
    if newValue.Some? then cleared[newValue.value := r] else cleared
  }

  /** `updateServiceId`, `updateE164`, `updatePni`. */
  function Update(c: Controller, key: Key, r: Ref, v: Option<Ident>): (d: Controller)
    requires r in c.models
    ensures d.models == c.models[r := WithSlot(c.models[r], key, v)]
  {
    var was := Slot(c.models[r], key);
    assert c.models[r := c.models[r]] == c.models;
    if v == was then c
    else c.(models := c.models[r := WithSlot(c.models[r], key, v)])
          .WithIndex(key, IdUpdated(c.Index(key), r, was, v))
  }

  lemma SlotUpdated(models: Models, key: Key, index: Lookup, r: Ref, v: Option<Ident>)
    requires Agrees(models, key, index) && r in models
    requires forall q | q in models && q != r :: v.Some? ==> Slot(models[q], key) != v
    ensures Agrees(models[r := WithSlot(models[r], key, v)], key, IdUpdated(index, r, Slot(models[r], key), v))
  {
    var models', index' := models[r := WithSlot(models[r], key, v)], IdUpdated(index, r, Slot(models[r], key), v);
    assert Slot(models'[r], key) == v;
    forall q | q in models' && Slot(models'[q], key).Some?
      ensures Slot(models'[q], key).value in index' && index'[Slot(models'[q], key).value] == q
    {
      if q != r { assert models'[q] == models[q]; }
    }
    forall id | id in index'
      ensures index'[id] in models' && Slot(models'[index'[id]], key) == Some(id)
    {
      if Some(id) != v { assert id in index && index[id] != r; }
    }
  }

  lemma OtherSlotKept(models: Models, key: Key, index: Lookup, r: Ref, a: Attrs)
    requires Agrees(models, key, index) && r in models && Slot(a, key) == Slot(models[r], key)
    ensures Agrees(models[r := a], key, index)
  {
  }

  lemma ListKept(c: Controller, r: Ref, a: Attrs)
    requires Listed(c.list, c.models, c.byId) && GroupsAgree(c.models, c.byGroupId)
    requires r in c.models && a.group == c.models[r].group
    ensures Listed(c.list, c.models[r := a], c.byId) && GroupsAgree(c.models[r := a], c.byGroupId)
  {
  }

  lemma UpdateKeepsIndexed(c: Controller, key: Key, r: Ref, v: Option<Ident>)
    requires Indexed(c) && r in c.models
    requires forall q | q in c.models && q != r :: v.Some? ==> Slot(c.models[q], key) != v
    ensures Indexed(Update(c, key, r, v)) && Update(c, key, r, v).list == c.list
  {
    hide Agrees, GroupsAgree, Listed;
    if v != Slot(c.models[r], key) {
      var a := WithSlot(c.models[r], key, v);
      ListKept(c, r, a);
      IndexUpdated(c, key, r, v);
      if key != ServiceId { OtherSlotKept(c.models, ServiceId, c.byServiceId, r, a); }
      if key != E164 { OtherSlotKept(c.models, E164, c.byE164, r, a); }
      if key != PniKey { OtherSlotKept(c.models, PniKey, c.byPni, r, a); }
    }
  }

  lemma IndexUpdated(c: Controller, key: Key, r: Ref, v: Option<Ident>)
    requires Indexed(c) && r in c.models
    requires forall q | q in c.models && q != r :: v.Some? ==> Slot(c.models[q], key) != v
    ensures Agrees(c.models[r := WithSlot(c.models[r], key, v)], key,
                   IdUpdated(c.Index(key), r, Slot(c.models[r], key), v))
  {
    hide Agrees, GroupsAgree, Listed;
    SlotUpdated(c.models, key, c.Index(key), r, v);
  }

  // ---------- applyChangeToConversation ----------

  datatype Field = Keep | Put(v: Option<Ident>) {
    predicate Truthy() { Put? && v.Some? }
  }

  datatype Change = Change(serviceId: Field, e164: Field, pni: Field)

  function ChangeOf(key: Key, v: Option<Ident>): Change {
    match key
    case ServiceId => Change(Put(v), Keep, Keep)
    case E164 => Change(Keep, Put(v), Keep)
    case PniKey => Change(Keep, Keep, Put(v))
  }

  /** The change with the rules for PNIs worked in. */
  function Completed(a: Attrs, suggested: Change): Change {
    var c1 := if suggested.e164.Put? && !suggested.pni.Truthy() then suggested.(pni := Put(None)) else suggested;
    var c2 := if c1.pni.Truthy() && !c1.serviceId.Truthy() && (a.serviceId.None? || a.serviceId == a.pni)
              then c1.(serviceId := c1.pni) else c1;
    if !c2.serviceId.Truthy() && c2.pni.Put? && c2.pni.v.None? && a.serviceId == a.pni
    then c2.(serviceId := Put(None)) else c2
  }

  function Changed(a: Attrs, suggested: Change): Attrs {
    var change := Completed(a, suggested);
    Attrs(if change.serviceId.Put? then change.serviceId.v else a.serviceId,
          if change.e164.Put? then change.e164.v else a.e164,
          if change.pni.Put? then change.pni.v else a.pni,
          a.group)
  }

  /** A number that changes takes the PNI along unless one is given; a PNI fills a service id that is empty or
      the PNI, and takes it along when it goes. */
  lemma ChangedExactly(a: Attrs, suggested: Change)
    ensures var b := Changed(a, suggested);
            var given := suggested.pni.Put? && suggested.pni.v.Some?;
            var goes := !given && (suggested.pni.Put? || suggested.e164.Put?);
            && b.group == a.group
            && b.e164 == (if suggested.e164.Put? then suggested.e164.v else a.e164)
            && b.pni == (if given then suggested.pni.v else if goes then None else a.pni)
            && b.serviceId == if suggested.serviceId.Put? && suggested.serviceId.v.Some? then suggested.serviceId.v
                              else if given && (a.serviceId.None? || a.serviceId == a.pni) then suggested.pni.v
                              else if suggested.serviceId.Put? || (goes && a.serviceId == a.pni) then None
                              else a.serviceId
  {
  }

  function UpdateField(c: Controller, key: Key, r: Ref, field: Field): (d: Controller)
    requires r in c.models
    ensures d.models == c.models[r := if field.Put? then WithSlot(c.models[r], key, field.v) else c.models[r]]
  {
    assert c.models[r := c.models[r]] == c.models;
    if field.Put? then Update(c, key, r, field.v) else c
  }

  function ApplyChange(c: Controller, r: Ref, suggested: Change): (d: Controller)
    requires r in c.models
    ensures d.models == c.models[r := Changed(c.models[r], suggested)]
  {
    var change := Completed(c.models[r], suggested);
    var c1 := UpdateField(c, ServiceId, r, change.serviceId);
    var c2 := UpdateField(c1, E164, r, change.e164);
    UpdateField(c2, PniKey, r, change.pni)
  }

  /** Nobody but `r` holds `v`. */
  ghost predicate Free(models: Models, r: Ref, v: Option<Ident>) {
    v.Some? ==> forall q | q in models && q != r :: !models[q].Holds(v.value)
  }

  /** What a conversation may be changed to: well-typed, and nothing of another conversation's. */
  ghost predicate Takes(models: Models, r: Ref, a: Attrs) {
    a.WellTyped() && Free(models, r, a.serviceId) && Free(models, r, a.e164) && Free(models, r, a.pni)
  }

  lemma FieldKeepsIndexed(c: Controller, key: Key, r: Ref, field: Field)
    requires Indexed(c) && r in c.models && (field.Put? ==> Free(c.models, r, field.v))
    ensures Indexed(UpdateField(c, key, r, field)) && UpdateField(c, key, r, field).list == c.list
  {
    if field.Put? {
      UpdateKeepsIndexed(c, key, r, field.v);
    }
  }

  lemma FieldKeepsFree(c: Controller, key: Key, r: Ref, field: Field, v: Option<Ident>)
    requires r in c.models && Free(c.models, r, v)
    ensures Free(UpdateField(c, key, r, field).models, r, v)
  {
  }

  lemma ApplyKeepsIndexed(c: Controller, r: Ref, suggested: Change)
    requires Indexed(c) && r in c.models && Takes(c.models, r, Changed(c.models[r], suggested))
    ensures Indexed(ApplyChange(c, r, suggested))
    ensures ApplyChange(c, r, suggested).list == c.list
  {
    var change := Completed(c.models[r], suggested);
    FieldKeepsIndexed(c, ServiceId, r, change.serviceId);
    var c1 := UpdateField(c, ServiceId, r, change.serviceId);
    if change.e164.Put? { FieldKeepsFree(c, ServiceId, r, change.serviceId, change.e164.v); }
    if change.pni.Put? { FieldKeepsFree(c, ServiceId, r, change.serviceId, change.pni.v); }
    TwoFieldsKeepIndexed(c1, r, change.e164, change.pni);
  }

  lemma TwoFieldsKeepIndexed(c: Controller, r: Ref, e164: Field, pni: Field)
    requires Indexed(c) && r in c.models
    requires (e164.Put? ==> Free(c.models, r, e164.v)) && (pni.Put? ==> Free(c.models, r, pni.v))
    ensures var d := UpdateField(UpdateField(c, E164, r, e164), PniKey, r, pni); Indexed(d) && d.list == c.list
  {
    FieldKeepsIndexed(c, E164, r, e164);
    if pni.Put? { FieldKeepsFree(c, E164, r, e164, pni.v); }
    FieldKeepsIndexed(UpdateField(c, E164, r, e164), PniKey, r, pni);
  }

  lemma TakerIsDisjoint(models: Models, r: Ref, a: Attrs, q: Ref)
    requires Sound(models) && Takes(models, r, a) && q in models && q != r
    ensures a.DisjointFrom(models[q]) && models[q].DisjointFrom(a)
  {
  }

  /** `r` may be new. */
  lemma TakesKeepsSound(models: Models, r: Ref, a: Attrs)
    requires Sound(models) && Takes(models, r, a)
    ensures Sound(models[r := a])
  {
    hide Attrs.DisjointFrom, Free;
    forall q | q in models && q != r
      ensures a.DisjointFrom(models[q]) && models[q].DisjointFrom(a)
    {
      TakerIsDisjoint(models, r, a, q);
    }
  }

  /** Identifiers move to a conversation without any lookup going wrong. */
  lemma ApplyKeepsWellFormed(c: Controller, r: Ref, suggested: Change)
    requires WellFormed(c) && r in c.models && Takes(c.models, r, Changed(c.models[r], suggested))
    ensures WellFormed(ApplyChange(c, r, suggested))
    ensures ApplyChange(c, r, suggested).list == c.list
  {
    ApplyKeepsIndexed(c, r, suggested);
    TakesKeepsSound(c.models, r, Changed(c.models[r], suggested));
  }
}
