/**
 * The list of threads under a memory, with in-place editing and deletion
 * behind a confirmation dialog. Each handler is a step on `ListState`; the
 * class applies it. A thread id is held as an optional string, and, as in
 * the handlers' truthiness tests, an empty id counts as no id.
 */
module ThreadList {
  import opened Wrappers
  import opened Ui
  import Seqs
  import Schema
  import Auth

  datatype Call =
    | FetchThreads(memoryId: string)
    | UpdateThread(id: string, content: string)
    | DeleteThread(id: string)
    | ShowToast(toast: Toast)

  const LoadFailedToast: Toast := Toast("Error", "Failed to load threads")
  const UpdatedToast: Toast := Toast("Success", "Thread updated successfully")
  const UpdateFailedToast: Toast := Toast("Error", "Failed to update thread")
  const DeletedToast: Toast := Toast("Success", "Thread deleted successfully")
  const DeleteFailedToast: Toast := Toast("Error", "Failed to delete thread")

  datatype ListState = ListState(
    threads: seq<Schema.Thread>,
    editingThread: Option<string>,
    editContent: string,
    deleteConfirm: Option<string>,
    isLoading: bool,
    calls: seq<Call>)

  /** A JavaScript `string | null` read as a condition: present and non-empty. */
  predicate Truthy(id: Option<string>) {
    id.Some? && id.value != ""
  }

  /** `loadThreads`; `fetched` is the list the service returns, or `None` when it throws. */
  function LoadStep(s: ListState, memoryId: string, fetched: Option<seq<Schema.Thread>>): ListState {
    if fetched.Some? then s.(threads := fetched.value, calls := s.calls + [FetchThreads(memoryId)])
    else s.(calls := s.calls + [FetchThreads(memoryId), ShowToast(LoadFailedToast)])
  }

  /** `handleEdit(thread)`. */
  function EditStep(s: ListState, t: Schema.Thread): ListState {
    s.(editingThread := Some(t.id), editContent := t.content)
  }

  /** `handleSaveEdit`; `ok` says whether `updateThread` resolved. */
  function SaveStep(s: ListState, ok: bool): ListState {
    if !Truthy(s.editingThread) then s
    else
      var sent := s.calls + [UpdateThread(s.editingThread.value, s.editContent)];
      if ok then s.(editingThread := None, editContent := "", isLoading := false, calls := sent + [ShowToast(UpdatedToast)])
      else s.(isLoading := false, calls := sent + [ShowToast(UpdateFailedToast)])
  }

  /** The Cancel button: `setEditingThread(null)`. */
  function CancelStep(s: ListState): ListState {
    s.(editingThread := None)
  }

  /** A thread's Delete button: `setDeleteConfirm(thread.id)`. */
  function RequestDeleteStep(s: ListState, id: string): ListState {
    s.(deleteConfirm := Some(id))
  }

  /** The dialog's `onOpenChange`: `setDeleteConfirm(null)`. */
  function CloseDialogStep(s: ListState): ListState {
    s.(deleteConfirm := None)
  }

  /** `handleDelete(threadId)`; `ok` says whether `deleteThread` resolved. */
  function DeleteStep(s: ListState, threadId: string, ok: bool): ListState {
    var sent := s.calls + [DeleteThread(threadId)];
    if ok then s.(deleteConfirm := None, isLoading := false, calls := sent + [ShowToast(DeletedToast)])
    else s.(isLoading := false, calls := sent + [ShowToast(DeleteFailedToast)])
  }

  /** The dialog's action: `deleteConfirm && handleDelete(deleteConfirm)`. */
  function ConfirmStep(s: ListState, ok: bool): ListState {
    if Truthy(s.deleteConfirm) then DeleteStep(s, s.deleteConfirm.value, ok) else s
  }

  /** `user?.id === thread.created_by`. */
  predicate ShowsControls(user: Option<Auth.User>, t: Schema.Thread) {
    user.Some? && user.value.id == t.createdBy
  }

  /** The dialog is open while a (non-empty) id waits for confirmation. */
  predicate DialogOpen(s: ListState) {
    Truthy(s.deleteConfirm)
  }

  /** What one thread's row shows. */
  datatype Row =
    | EditorRow(text: string)
    | DisplayRow(content: string, edited: bool, controls: bool)

  function RowOf(s: ListState, user: Option<Auth.User>, t: Schema.Thread): Row {
    if s.editingThread == Some(t.id) then EditorRow(s.editContent)
    else DisplayRow(t.content, t.isEdited, ShowsControls(user, t))
  }

  /** The threads whose row offers Edit and Delete, in list order. */
  function ControlledThreads(user: Option<Auth.User>, threads: seq<Schema.Thread>): (r: seq<Schema.Thread>)
    ensures forall t :: t in r <==> t in threads && user.Some? && t.createdBy == user.value.id
  {
    Seqs.Filter(threads, t => ShowsControls(user, t))
  }

  class ThreadListView {
    const memoryId: string
    var threads: seq<Schema.Thread>
    var editingThread: Option<string>
    var editContent: string
    var deleteConfirm: Option<string>
    var isLoading: bool
    var calls: seq<Call>

    function State(): ListState
      reads this
    {
      ListState(threads, editingThread, editContent, deleteConfirm, isLoading, calls)
    }

    constructor (memoryId: string)
      ensures this.memoryId == memoryId
      ensures State() == ListState([], None, "", None, false, [])
    {
      this.memoryId := memoryId;
      threads, editingThread, editContent, deleteConfirm := [], None, "", None;
      isLoading, calls := false, [];
    }

    method LoadThreads(fetched: Option<seq<Schema.Thread>>)
      modifies this
      ensures State() == LoadStep(old(State()), memoryId, fetched)
    {
      calls := calls + [FetchThreads(memoryId)];
      if fetched.Some? {
        threads := fetched.value;
      } else {
        calls := calls + [ShowToast(LoadFailedToast)];
      }
    }

    method HandleEdit(t: Schema.Thread)
      modifies this
      ensures State() == EditStep(old(State()), t)
    {
      editingThread := Some(t.id);
      editContent := t.content;
    }

    /** The edit box's `onChange`. */
    method SetEditContent(text: string)
      modifies this
      ensures State() == old(State()).(editContent := text)
    {
      editContent := text;
    }

    method HandleSaveEdit(ok: bool)
      modifies this
      ensures State() == SaveStep(old(State()), ok)
    {
      if editingThread.None? || editingThread.value == "" {
        return;
      }
      isLoading := true;
      calls := calls + [UpdateThread(editingThread.value, editContent)];
      if ok {
        editingThread := None;
        editContent := "";
        calls := calls + [ShowToast(UpdatedToast)];
      } else {
        calls := calls + [ShowToast(UpdateFailedToast)];
      }
      isLoading := false;
    }

    method Cancel()
      modifies this
      ensures State() == CancelStep(old(State()))
    {
      editingThread := None;
    }

    method RequestDelete(id: string)
      modifies this
      ensures State() == RequestDeleteStep(old(State()), id)
    {
      deleteConfirm := Some(id);
    }

    method CloseDialog()
      modifies this
      ensures State() == CloseDialogStep(old(State()))
    {
      deleteConfirm := None;
    }

    method HandleDelete(threadId: string, ok: bool)
      modifies this
      ensures State() == DeleteStep(old(State()), threadId, ok)
    {
      isLoading := true;
      calls := calls + [DeleteThread(threadId)];
      if ok {
        deleteConfirm := None;
        calls := calls + [ShowToast(DeletedToast)];
      } else {
        calls := calls + [ShowToast(DeleteFailedToast)];
      }
      isLoading := false;
    }

    method ConfirmDelete(ok: bool)
      modifies this
      ensures State() == ConfirmStep(old(State()), ok)
    {
      if deleteConfirm.Some? && deleteConfirm.value != "" {
        HandleDelete(deleteConfirm.value, ok);
      }
    }
  }

  /** Editing loads the thread's id and content into the editor and touches nothing else. */
  lemma EditLoadsThread(s: ListState, t: Schema.Thread, user: Option<Auth.User>)
    ensures var e := EditStep(s, t);
            e.editingThread == Some(t.id) && e.editContent == t.content
            && e.calls == s.calls && e.threads == s.threads && e.deleteConfirm == s.deleteConfirm
            && RowOf(e, user, t) == EditorRow(t.content)
  {
  }

  /** Saving with no thread in the editor does nothing; in particular, saving after Cancel does nothing. */
  lemma SaveWithoutEditorIsNoop(s: ListState, ok: bool)
    ensures s.editingThread.None? ==> SaveStep(s, ok) == s
    ensures SaveStep(CancelStep(s), ok) == CancelStep(s)
  {
  }

  /** A save sends exactly one update, of the edited id with the editor's text and nothing else.
      Success empties the editor; failure keeps both the id and the text. Loading ends either way. */
  lemma SaveSendsContentOnly(s: ListState, ok: bool)
    requires Truthy(s.editingThread)
    ensures var r := SaveStep(s, ok);
            && r.calls[..|s.calls| + 1] == s.calls + [UpdateThread(s.editingThread.value, s.editContent)]
            && |r.calls| == |s.calls| + 2
            && !r.isLoading
            && (ok ==> r.editingThread.None? && r.editContent == "")
            && (!ok ==> r.editingThread == s.editingThread && r.editContent == s.editContent)
            && r.threads == s.threads && r.deleteConfirm == s.deleteConfirm
  {
    var r := SaveStep(s, ok);
    assert r.calls[..|s.calls| + 1] == s.calls + [UpdateThread(s.editingThread.value, s.editContent)];
  }

  /** Pressing Delete and closing the dialog call nothing: a delete is sent only by confirming, and it
      deletes the thread whose Delete was pressed. */
  lemma DeleteOnlyThroughConfirmation(s: ListState, id: string, ok: bool)
    requires id != ""
    ensures RequestDeleteStep(s, id).calls == s.calls
    ensures CloseDialogStep(RequestDeleteStep(s, id)).calls == s.calls
    ensures !DialogOpen(CloseDialogStep(RequestDeleteStep(s, id)))
    ensures DialogOpen(RequestDeleteStep(s, id))
    ensures ConfirmStep(RequestDeleteStep(s, id), ok).calls[|s.calls|] == DeleteThread(id)
  {
  }

  /** Confirming with nothing waiting does nothing. */
  lemma ConfirmWithoutRequestIsNoop(s: ListState, ok: bool)
    requires !DialogOpen(s)
    ensures ConfirmStep(s, ok) == s
  {
  }

  /** A successful delete closes the dialog; a failed one leaves it open on the same thread.
      Loading ends either way. */
  lemma DeleteOutcome(s: ListState, threadId: string, ok: bool)
    ensures var r := DeleteStep(s, threadId, ok);
            !r.isLoading
            && (ok ==> r.deleteConfirm.None?)
            && (!ok ==> r.deleteConfirm == s.deleteConfirm)
            && r.editingThread == s.editingThread && r.editContent == s.editContent
  {
  }

  /** Only the signed-in creator of a thread gets its controls; a signed-out viewer gets none. */
  lemma ControlsOnlyForCreator(user: Option<Auth.User>, threads: seq<Schema.Thread>, s: ListState)
    ensures user.None? ==> ControlledThreads(user, threads) == []
    ensures forall t :: t in threads && s.editingThread != Some(t.id) ==>
              RowOf(s, user, t).controls == (user.Some? && user.value.id == t.createdBy)
  {
    if user.None? {
      Seqs.FilterNone(threads, t => ShowsControls(user, t));
    }
  }
}
