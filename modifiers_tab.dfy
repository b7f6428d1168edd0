/** The modifiers tab (`client/src/pages/menu/ModifiersTab.tsx`): the group and modifier
    form schemas, the modifier save, which needs a selected group, and the selection
    after a group is deleted. */
module ModifiersTab {
  import opened Wrappers
  import opened AdminForms

  datatype ModifierGroup = ModifierGroup(id: string, name: string, min: int, max: int, sortOrder: int, isActive: bool)

  datatype GroupForm = GroupForm(name: string, min: int, max: int, sortOrder: int, isActive: bool)

  /** The modifier form; the price difference is the text typed. */
  datatype ModifierForm = ModifierForm(name: string, priceDelta: string, sortOrder: int, isActive: bool)

  /** What a modifier save sends: the form plus the selected group's id. */
  datatype ModifierData = ModifierData(form: ModifierForm, groupId: string)

  /** The form `openNewGroupDialog` opens, and the group form's defaults. */
  const NewGroupForm: GroupForm := GroupForm("", 0, 1, 0, true)

  const DefaultModifierForm: ModifierForm := ModifierForm("", "0.00", 0, true)

  /** `modifierGroupSchema`: a non-empty name, min at least 0, max at least 1, sort order
      at least 0. */
  predicate ValidGroupForm(f: GroupForm)
  {
    |f.name| >= 1 && f.min >= 0 && f.max >= 1 && f.sortOrder >= 0
  }

  /** `modifierSchema`: a non-empty name and a sort order of at least 0. */
  predicate ValidModifierForm(f: ModifierForm)
  {
    |f.name| >= 1 && f.sortOrder >= 0
  }

  /** The group schema does not relate min to max: a minimum above the maximum passes. */
  lemma MinAboveMaxAccepted()
    ensures ValidGroupForm(GroupForm("Sauces", 3, 1, 0, true))
  {
  }

  /** The modifier schema takes any price text, numeric or not. */
  lemma PriceDeltaNotChecked(name: string, priceDelta: string, sortOrder: int, isActive: bool)
    ensures ValidModifierForm(ModifierForm(name, priceDelta, sortOrder, isActive)) <==> name != "" && sortOrder >= 0
  {
  }

  /** `openNewGroupDialog`. */
  function OpenNewGroupDialog(ed: Editor<GroupForm>): Editor<GroupForm>
  {
    Editor(None, true, NewGroupForm)
  }

  /** A new group dialog edits no group and opens on min 0, max 1, sort order 0, active and
      no name; naming the group is all it takes to pass the schema. */
  lemma NewGroupDefaults(ed: Editor<GroupForm>, name: string)
    ensures var r := OpenNewGroupDialog(ed);
      r.editingId == None && r.dialogOpen &&
      r.form.min == 0 && r.form.max == 1 && r.form.sortOrder == 0 && r.form.isActive
    ensures !ValidGroupForm(OpenNewGroupDialog(ed).form)
    ensures ValidGroupForm(OpenNewGroupDialog(ed).form.(name := name)) <==> name != ""
  {
  }

  /** The save of the group dialog. */
  function HandleGroupSubmit(ed: Editor<GroupForm>, data: GroupForm, succeeds: bool): Submitted<GroupForm>
  {
    Submit(ed, data, succeeds, NewGroupForm)
  }

  /** Editing a group sends an update of it, otherwise a create; the dialog is reset to the
      new-group form after a success only. */
  lemma HandleGroupSubmitChoice(ed: Editor<GroupForm>, data: GroupForm, succeeds: bool)
    ensures ed.editingId.Some? ==> HandleGroupSubmit(ed, data, succeeds).request == Update(ed.editingId.value, data)
    ensures ed.editingId.None? ==> HandleGroupSubmit(ed, data, succeeds).request == Create(data)
    ensures succeeds ==> HandleGroupSubmit(ed, data, succeeds).after == Editor(None, false, NewGroupForm)
    ensures !succeeds ==> HandleGroupSubmit(ed, data, succeeds).after == ed
  {
  }

  /** `handleModifierSubmit`: without a selected group nothing is sent and nothing
      changes; otherwise the modifier is saved into the selected group. */
  function HandleModifierSubmit(selectedGroup: Option<ModifierGroup>, ed: Editor<ModifierForm>,
                                data: ModifierForm, succeeds: bool): (r: (Option<Save<ModifierData>>, Editor<ModifierForm>))
    ensures selectedGroup.None? ==> r.0.None? && r.1 == ed
    ensures selectedGroup.Some? ==> r.0.Some? && r.0.value.data == ModifierData(data, selectedGroup.value.id)
    ensures selectedGroup.Some? ==> (r.0.value.Update? <==> ed.editingId.Some?)
    ensures selectedGroup.Some? && ed.editingId.Some? ==>
      r.0.value == Update(ed.editingId.value, ModifierData(data, selectedGroup.value.id))
    ensures selectedGroup.Some? && ed.editingId.None? ==>
      r.0.value == Create(ModifierData(data, selectedGroup.value.id))
    ensures selectedGroup.Some? && succeeds ==> r.1 == Editor(None, false, DefaultModifierForm)
    ensures !succeeds ==> r.1 == ed
  {
    match selectedGroup
    case None => (None, ed)
    case Some(g) =>
      var modifierData := ModifierData(data, g.id);
      var request := match ed.editingId
        case Some(id) => Update(id, modifierData)
        case None => Create(modifierData);
      (Some(request), if succeeds then Editor(None, false, DefaultModifierForm) else ed)
  }

  /** `handleDeleteGroup`: unconfirmed, nothing is sent; confirmed, the delete is sent and,
      once it succeeds, the selection is cleared if it was the deleted group. A failed
      delete rejects before the selection is looked at. */
  function HandleDeleteGroup(selectedGroup: Option<ModifierGroup>, id: string, confirmed: bool,
                             deleteSucceeds: bool): (r: (bool, Option<ModifierGroup>))
    ensures r.0 == confirmed
    ensures confirmed && deleteSucceeds && selectedGroup.Some? && selectedGroup.value.id == id ==> r.1 == None
    ensures !(confirmed && deleteSucceeds && selectedGroup.Some? && selectedGroup.value.id == id) ==>
      r.1 == selectedGroup
  {
    if !confirmed then (false, selectedGroup)
    else if deleteSucceeds && selectedGroup.Some? && selectedGroup.value.id == id then (true, None)
    else (true, selectedGroup)
  }
}
