/**
 * The trash page: restore and permanent delete, each behind its own
 * confirmation dialog, sharing one processing slot, so both buttons of the
 * note being processed are disabled whichever request is in flight.
 */
module NoteTrash {
  import opened Wrappers
  import opened Js
  import opened Http
  import opened ConfirmDialog
  import Dashboard

  /** `/notes/trash/{id}/restore`: the trash path of the note, extended. */
  function RestorePath(id: string): (p: string)
    ensures p == Dashboard.TrashPath(id) + "/restore"
  {
    "/notes/trash/" + id + "/restore"
  }

  /** `/notes/{id}?permanent=true`. */
  function DeletePath(id: string): (p: string)
    ensures p == NotePath(id) + "?permanent=true"
    ensures |p| == |id| + 22 && p[..7] == "/notes/" && p[7..|p| - 15] == id && p[|p| - 15..] == "?permanent=true"
  {
    NotePath(id) + "?permanent=true"
  }

  function RestoreNotice(o: Outcome<()>): (n: Notice)
    ensures n.Success? <==> o.Succeeded?
    ensures n.Success? ==> n.text == "Note restored successfully"
    ensures n.Failure? ==> n.text == "Failed to restore note. Please try again."
  {
    OutcomeNotice(o, "Note restored successfully", "Failed to restore note. Please try again.")
  }

  function DeleteNotice(o: Outcome<()>): (n: Notice)
    ensures n.Success? <==> o.Succeeded?
    ensures n.Success? ==> n.text == "Note permanently deleted"
    ensures n.Failure? ==> n.text == "Failed to delete note. Please try again."
  {
    OutcomeNotice(o, "Note permanently deleted", "Failed to delete note. Please try again.")
  }

  class Page {
    var isProcessing: Option<string>
    var deleteDialogOpen: bool
    var noteToDelete: Option<string>
    var restoreDialogOpen: bool
    var noteToRestore: Option<string>

    function RestoreSlot(): Slot
      reads this
    {
      Slot(restoreDialogOpen, noteToRestore)
    }

    function DeleteSlot(): Slot
      reads this
    {
      Slot(deleteDialogOpen, noteToDelete)
    }

    /** Restore and Delete of a note are both disabled iff it is the note being processed. */
    predicate ActionsDisabled(id: string)
      reads this
    {
      isProcessing == Some(id)
    }

    /** Both dialogs' confirm buttons are disabled while any note is processed. */
    predicate ConfirmDisabled()
      reads this
    {
      isProcessing.Some?
    }

    constructor ()
      ensures RestoreSlot() == Closed && DeleteSlot() == Closed && isProcessing.None?
    {
      isProcessing := None;
      deleteDialogOpen, noteToDelete := false, None;
      restoreDialogOpen, noteToRestore := false, None;
    }

    /** `handleRestore(id)`: only the restore dialog changes. */
    method HandleRestore(id: string)
      modifies this
      ensures RestoreSlot() == old(RestoreSlot()).Ask(id)
      ensures DeleteSlot() == old(DeleteSlot()) && isProcessing == old(isProcessing)
    {
      noteToRestore := Some(id);
      restoreDialogOpen := true;
    }

    /** `handleDelete(id)`: only the delete dialog changes. */
    method HandleDelete(id: string)
      modifies this
      ensures DeleteSlot() == old(DeleteSlot()).Ask(id)
      ensures RestoreSlot() == old(RestoreSlot()) && isProcessing == old(isProcessing)
    {
      noteToDelete := Some(id);
      deleteDialogOpen := true;
    }

    /** Cancel in the restore dialog clears its own target only. */
    method CancelRestore()
      modifies this
      ensures RestoreSlot() == old(RestoreSlot()).Cancel()
      ensures DeleteSlot() == old(DeleteSlot()) && isProcessing == old(isProcessing)
    {
      restoreDialogOpen := false;
      noteToRestore := None;
    }

    /** Cancel in the delete dialog clears its own target only. */
    method CancelDelete()
      modifies this
      ensures DeleteSlot() == old(DeleteSlot()).Cancel()
      ensures RestoreSlot() == old(RestoreSlot()) && isProcessing == old(isProcessing)
    {
      deleteDialogOpen := false;
      noteToDelete := None;
    }

    method SetRestoreDialogOpen(open: bool)
      modifies this
      ensures RestoreSlot() == old(RestoreSlot()).SetOpen(open)
      ensures DeleteSlot() == old(DeleteSlot()) && isProcessing == old(isProcessing)
    {
      restoreDialogOpen := open;
    }

    method SetDeleteDialogOpen(open: bool)
      modifies this
      ensures DeleteSlot() == old(DeleteSlot()).SetOpen(open)
      ensures RestoreSlot() == old(RestoreSlot()) && isProcessing == old(isProcessing)
    {
      deleteDialogOpen := open;
    }

    /** `confirmRestore` up to the `await`: one `PATCH /notes/trash/{id}/restore` on a truthy target. */
    method BeginRestore() returns (sent: Option<Request>)
      modifies this
      ensures !old(RestoreSlot()).Armed() ==> sent.None? && unchanged(this)
      ensures old(RestoreSlot()).Armed() ==>
                sent == Some(Request(Api, Patch, RestorePath(old(noteToRestore).value), NoBody))
                && isProcessing == old(noteToRestore)
                && ActionsDisabled(old(noteToRestore).value) && ConfirmDisabled()
                && RestoreSlot() == old(RestoreSlot()) && DeleteSlot() == old(DeleteSlot())
    {
      if !Truthy(noteToRestore) {
        sent := None;
        return;
      }
      isProcessing := noteToRestore;
      sent := Some(Request(Api, Patch, RestorePath(noteToRestore.value), NoBody));
    }

    /** The `finally` of `confirmRestore`: the shared slot and the restore dialog reset. */
    method FinishRestore(o: Outcome<()>) returns (notice: Notice, refetch: bool)
      modifies this
      ensures isProcessing.None? && RestoreSlot() == Closed && DeleteSlot() == old(DeleteSlot())
      ensures notice == RestoreNotice(o) && refetch == o.Succeeded?
    {
      notice := RestoreNotice(o);
      refetch := o.Succeeded?;
      isProcessing := None;
      restoreDialogOpen := false;
      noteToRestore := None;
    }

    /** `confirmDelete` up to the `await`: one `DELETE /notes/{id}?permanent=true` on a truthy target. */
    method BeginDelete() returns (sent: Option<Request>)
      modifies this
      ensures !old(DeleteSlot()).Armed() ==> sent.None? && unchanged(this)
      ensures old(DeleteSlot()).Armed() ==>
                sent == Some(Request(Api, Delete, DeletePath(old(noteToDelete).value), NoBody))
                && isProcessing == old(noteToDelete)
                && ActionsDisabled(old(noteToDelete).value) && ConfirmDisabled()
                && RestoreSlot() == old(RestoreSlot()) && DeleteSlot() == old(DeleteSlot())
    {
      if !Truthy(noteToDelete) {
        sent := None;
        return;
      }
      isProcessing := noteToDelete;
      sent := Some(Request(Api, Delete, DeletePath(noteToDelete.value), NoBody));
    }

    /** The `finally` of `confirmDelete`: the shared slot and the delete dialog reset. */
    method FinishDelete(o: Outcome<()>) returns (notice: Notice, refetch: bool)
      modifies this
      ensures isProcessing.None? && DeleteSlot() == Closed && RestoreSlot() == old(RestoreSlot())
      ensures notice == DeleteNotice(o) && refetch == o.Succeeded?
    {
      notice := DeleteNotice(o);
      refetch := o.Succeeded?;
      isProcessing := None;
      deleteDialogOpen := false;
      noteToDelete := None;
    }

    /** A whole restore confirmation: a no-op without a target, otherwise one request and reset. */
    method ConfirmRestore(o: Outcome<()>) returns (sent: Option<Request>, notice: Option<Notice>, refetch: bool)
      modifies this
      ensures !old(RestoreSlot()).Armed() ==> sent.None? && notice.None? && !refetch && unchanged(this)
      ensures old(RestoreSlot()).Armed() ==>
                sent == Some(Request(Api, Patch, RestorePath(old(noteToRestore).value), NoBody))
                && notice == Some(RestoreNotice(o)) && refetch == o.Succeeded?
                && isProcessing.None? && RestoreSlot() == Closed && DeleteSlot() == old(DeleteSlot())
    {
      sent := BeginRestore();
      if sent.None? {
        notice, refetch := None, false;
        return;
      }
      var n;
      n, refetch := FinishRestore(o);
      notice := Some(n);
    }

    /** A whole delete confirmation: a no-op without a target, otherwise one request and reset. */
    method ConfirmDelete(o: Outcome<()>) returns (sent: Option<Request>, notice: Option<Notice>, refetch: bool)
      modifies this
      ensures !old(DeleteSlot()).Armed() ==> sent.None? && notice.None? && !refetch && unchanged(this)
      ensures old(DeleteSlot()).Armed() ==>
                sent == Some(Request(Api, Delete, DeletePath(old(noteToDelete).value), NoBody))
                && notice == Some(DeleteNotice(o)) && refetch == o.Succeeded?
                && isProcessing.None? && DeleteSlot() == Closed && RestoreSlot() == old(RestoreSlot())
    {
      sent := BeginDelete();
      if sent.None? {
        notice, refetch := None, false;
        return;
      }
      var n;
      n, refetch := FinishDelete(o);
      notice := Some(n);
    }
  }
}
