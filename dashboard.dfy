/**
 * The dashboard's note list: navigation to a note and to its editor, and the
 * move-to-trash flow behind a confirmation dialog, with one processing slot
 * that disables the note's buttons while its request is in flight.
 */
module Dashboard {
  import opened Wrappers
  import opened Js
  import opened Http
  import opened ConfirmDialog

  /** `/notes/trash/{id}`. */
  function TrashPath(id: string): (p: string)
    ensures |p| == |id| + 13 && p[..13] == "/notes/trash/" && p[13..] == id
  {
    "/notes/trash/" + id
  }

  /** Card click: `/dashboard/notes/{id}`. */
  function NotePagePath(id: string): (p: string)
    ensures |p| == |id| + 17 && p[..17] == "/dashboard/notes/" && p[17..] == id
  {
    "/dashboard/notes/" + id
  }

  /** Edit button: the note's page path followed by `/edit`. */
  function EditPagePath(id: string): (p: string)
    ensures p == NotePagePath(id) + "/edit"
    ensures p[..17] == "/dashboard/notes/" && p[17..|p| - 5] == id
  {
    "/dashboard/notes/" + id + "/edit"
  }

  /** The toast after the trash request settles. */
  function TrashNotice(o: Outcome<()>): (n: Notice)
    ensures n.Success? <==> o.Succeeded?
    ensures n.Success? ==> n.text == "Note moved to trash"
    ensures n.Failure? ==> n.text == "Failed to move note to trash"
  {
    OutcomeNotice(o, "Note moved to trash", "Failed to move note to trash")
  }

  class Page {
    var trashDialogOpen: bool
    var noteToTrash: Option<string>
    var isProcessingNote: Option<string>

    function TrashSlot(): Slot
      reads this
    {
      Slot(trashDialogOpen, noteToTrash)
    }

    predicate Idle()
      reads this
    {
      TrashSlot() == Closed && isProcessingNote.None?
    }

    /** A note's Edit and Trash buttons are disabled iff it is the note being processed. */
    predicate ActionsDisabled(id: string)
      reads this
    {
      isProcessingNote == Some(id)
    }

    /** The dialog's confirm button is disabled while any note is processed. */
    predicate ConfirmDisabled()
      reads this
    {
      isProcessingNote.Some?
    }

    constructor ()
      ensures Idle()
    {
      trashDialogOpen, noteToTrash, isProcessingNote := false, None, None;
    }

    /** `handleTrashNote(id)`: target and open flag set, nothing else. */
    method HandleTrashNote(id: string)
      modifies this
      ensures TrashSlot() == old(TrashSlot()).Ask(id)
      ensures isProcessingNote == old(isProcessingNote)
    {
      noteToTrash := Some(id);
      trashDialogOpen := true;
    }

    /** The Cancel button: dialog closed, target cleared. */
    method CancelTrash()
      modifies this
      ensures TrashSlot() == old(TrashSlot()).Cancel()
      ensures isProcessingNote == old(isProcessingNote)
    {
      trashDialogOpen := false;
      noteToTrash := None;
    }

    /** `onOpenChange={setTrashDialogOpen}`. */
    method SetTrashDialogOpen(open: bool)
      modifies this
      ensures TrashSlot() == old(TrashSlot()).SetOpen(open)
      ensures isProcessingNote == old(isProcessingNote)
    {
      trashDialogOpen := open;
    }

    /**
     * `confirmTrashNote` up to the `await`: without a truthy target nothing
     * happens; otherwise the target becomes the processing note and exactly
     * one `PATCH /notes/trash/{id}` is issued.
     */
    method BeginConfirm() returns (sent: Option<Request>)
      modifies this
      ensures !old(TrashSlot()).Armed() ==> sent.None? && unchanged(this)
      ensures old(TrashSlot()).Armed() ==>
                sent == Some(Request(Api, Patch, TrashPath(old(noteToTrash).value), NoBody))
                && isProcessingNote == old(noteToTrash) && TrashSlot() == old(TrashSlot())
                && ActionsDisabled(old(noteToTrash).value) && ConfirmDisabled()
    {
      if !Truthy(noteToTrash) {
        sent := None;
        return;
      }
      isProcessingNote := noteToTrash;
      sent := Some(Request(Api, Patch, TrashPath(noteToTrash.value), NoBody));
    }

    /** The `try`/`catch`/`finally` after the response: toast, refetch on success, back to idle. */
    method Finish(o: Outcome<()>) returns (notice: Notice, refetch: bool)
      modifies this
      ensures Idle()
      ensures notice == TrashNotice(o) && refetch == o.Succeeded?
    {
      notice := TrashNotice(o);
      refetch := o.Succeeded?;
      isProcessingNote := None;
      trashDialogOpen := false;
      noteToTrash := None;
    }

    /**
     * A whole confirmation with the network's answer as input: a no-op
     * without a target, otherwise one request and back to idle on success
     * and on failure alike.
     */
    method ConfirmTrashNote(o: Outcome<()>) returns (sent: Option<Request>, notice: Option<Notice>, refetch: bool)
      modifies this
      ensures !old(TrashSlot()).Armed() ==> sent.None? && notice.None? && !refetch && unchanged(this)
      ensures old(TrashSlot()).Armed() ==>
                sent == Some(Request(Api, Patch, TrashPath(old(noteToTrash).value), NoBody))
                && Idle() && notice == Some(TrashNotice(o)) && refetch == o.Succeeded?
      ensures (TrashSlot(), if sent.Some? then Some(old(noteToTrash).value) else None)
              == Step(old(TrashSlot()), ConfirmPressed)
    {
      sent := BeginConfirm();
      if sent.None? {
        notice, refetch := None, false;
        return;
      }
      var n;
      n, refetch := Finish(o);
      notice := Some(n);
    }
  }
}
