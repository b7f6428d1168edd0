/** The editing dialog the menu administration tabs share: a form that either creates a
    new row or updates the one being edited, and is reset only when the save succeeds. */
module AdminForms {
  import opened Wrappers

  /** The request a submit sends. */
  datatype Save<T> = Create(data: T) | Update(id: string, data: T)

  /** The dialog's state: the id of the row being edited, if any, whether the dialog is
      open, and the form's values. */
  datatype Editor<T> = Editor(editingId: Option<string>, dialogOpen: bool, form: T)

  datatype Submitted<T> = Submitted(request: Save<T>, after: Editor<T>)

  /** `handleSubmit`: update when a row is being edited, create otherwise; on success the
      dialog closes, the edit ends and the form goes back to `defaults`; a failed save
      (caught by the handler) leaves everything as it was. The form's argument-less
      `reset()` returns to the values of the last `reset(values)`, not to the form's
      declared defaults; every path that opens the dialog calls `reset(values)` first, so
      the form kept here after a success is never shown and `defaults` stands for it. */
  function Submit<T>(ed: Editor<T>, data: T, succeeds: bool, defaults: T): (r: Submitted<T>)
    ensures r.request.Update? <==> ed.editingId.Some?
    ensures r.request.Update? ==> r.request.id == ed.editingId.value
    ensures r.request.data == data
    ensures succeeds ==> r.after == Editor(None, false, defaults)
    ensures !succeeds ==> r.after == ed
  {
    var request := match ed.editingId
      case Some(id) => Update(id, data)
      case None => Create(data);
    Submitted(request, if succeeds then Editor(None, false, defaults) else ed)
  }

  /** A successful save from any state ends in the same closed, blank dialog, so a
      second edit starts afresh. */
  lemma SubmitResets<T>(ed1: Editor<T>, ed2: Editor<T>, data1: T, data2: T, defaults: T)
    ensures Submit(ed1, data1, true, defaults).after == Submit(ed2, data2, true, defaults).after
    ensures Submit(ed1, data1, true, defaults).after.editingId == None
  {
  }
}
