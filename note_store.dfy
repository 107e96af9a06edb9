/**
 * The note-form store: the form being edited and the current note id, with
 * replace, partial merge, set-id and reset actions. Each action's effect on
 * the whole state is a pure transition below; the `Store` class performs it
 * in place.
 */
module NoteStore {
  import opened Wrappers

  /** `NoteFormData`; `userId` is optional. */
  datatype NoteForm = NoteForm(
    id: string,
    title: string,
    synopsis: string,
    content: string,
    isPublic: bool,
    userId: Option<string>)

  /** `Partial<NoteFormData>`: a field is `Some` exactly when its key is present. */
  datatype NoteFormUpdate = NoteFormUpdate(
    id: Option<string>,
    title: Option<string>,
    synopsis: Option<string>,
    content: Option<string>,
    isPublic: Option<bool>,
    userId: Option<string>)

  const NoUpdate := NoteFormUpdate(None, None, None, None, None, None)

  const InitialNoteForm := NoteForm("", "", "", "", false, None)

  /** The store's whole state, with the four actions as transitions. */
  datatype State = State(noteForm: NoteForm, currentNoteId: string) {

    /** `setNoteForm`: the form becomes `f`, the id is untouched. */
    function SetNoteForm(f: NoteForm): (t: State)
      ensures t.noteForm == f && t.currentNoteId == currentNoteId
    {
      this.(noteForm := f)
    }

    /**
     * `updateNoteForm`: exactly the fields present in `u` change, to their
     * values in `u`; the current note id never changes.
     */
    function UpdateNoteForm(u: NoteFormUpdate): (t: State)
      ensures t.currentNoteId == currentNoteId
      ensures u.id.Some? ==> t.noteForm.id == u.id.value
      ensures u.id.None? ==> t.noteForm.id == noteForm.id
      ensures u.title.Some? ==> t.noteForm.title == u.title.value
      ensures u.title.None? ==> t.noteForm.title == noteForm.title
      ensures u.synopsis.Some? ==> t.noteForm.synopsis == u.synopsis.value
      ensures u.synopsis.None? ==> t.noteForm.synopsis == noteForm.synopsis
      ensures u.content.Some? ==> t.noteForm.content == u.content.value
      ensures u.content.None? ==> t.noteForm.content == noteForm.content
      ensures u.isPublic.Some? ==> t.noteForm.isPublic == u.isPublic.value
      ensures u.isPublic.None? ==> t.noteForm.isPublic == noteForm.isPublic
      ensures u.userId.Some? ==> t.noteForm.userId == u.userId
      ensures u.userId.None? ==> t.noteForm.userId == noteForm.userId
      ensures u == NoUpdate ==> t == this
    {
      this.(noteForm := Merge(noteForm, u))
    }

    /** `setCurrentNoteId`: only the id changes. */
    function SetCurrentNoteId(id: string): (t: State)
      ensures t.currentNoteId == id && t.noteForm == noteForm
    {
      this.(currentNoteId := id)
    }

    /** `resetNoteForm`: back to the initial state, whatever the state was. */
    function ResetNoteForm(): (t: State)
      ensures t == InitialState
      ensures t.noteForm == NoteForm("", "", "", "", false, None) && t.currentNoteId == ""
    {
      InitialState
    }
  }

  const InitialState := State(InitialNoteForm, "")

  /** `{ ...form, ...updates }`: the present keys of `u` win, every other field stays. */
  function Merge(f: NoteForm, u: NoteFormUpdate): NoteForm {
    NoteForm(
      u.id.GetOr(f.id),
      u.title.GetOr(f.title),
      u.synopsis.GetOr(f.synopsis),
      u.content.GetOr(f.content),
      u.isPublic.GetOr(f.isPublic),
      if u.userId.Some? then u.userId else f.userId)
  }

  /** `{ ...u1, ...u2 }`: one update with the later value per key. */
  function Combine(u1: NoteFormUpdate, u2: NoteFormUpdate): (u: NoteFormUpdate)
    ensures u2 == NoUpdate ==> u == u1
    ensures u1 == NoUpdate ==> u == u2
  {
    NoteFormUpdate(
      if u2.id.Some? then u2.id else u1.id,
      if u2.title.Some? then u2.title else u1.title,
      if u2.synopsis.Some? then u2.synopsis else u1.synopsis,
      if u2.content.Some? then u2.content else u1.content,
      if u2.isPublic.Some? then u2.isPublic else u1.isPublic,
      if u2.userId.Some? then u2.userId else u1.userId)
  }

  /** Two successive partial updates are one update in which the later value wins per key. */
  lemma UpdateTwiceIsCombined(s: State, u1: NoteFormUpdate, u2: NoteFormUpdate)
    ensures s.UpdateNoteForm(u1).UpdateNoteForm(u2) == s.UpdateNoteForm(Combine(u1, u2))
  {
  }

  /** Applying the same update twice is applying it once. */
  lemma UpdateIdempotent(s: State, u: NoteFormUpdate)
    ensures s.UpdateNoteForm(u).UpdateNoteForm(u) == s.UpdateNoteForm(u)
  {
  }

  /** Resetting twice is resetting once, and a reset erases any earlier action. */
  lemma ResetIdempotent(s: State, f: NoteForm, u: NoteFormUpdate, id: string)
    ensures s.ResetNoteForm().ResetNoteForm() == s.ResetNoteForm()
    ensures s.SetNoteForm(f).ResetNoteForm() == s.ResetNoteForm()
    ensures s.UpdateNoteForm(u).ResetNoteForm() == s.ResetNoteForm()
    ensures s.SetCurrentNoteId(id).ResetNoteForm() == s.ResetNoteForm()
  {
  }

  /** A merge that supplies every key is a replace. */
  lemma FullUpdateIsSet(s: State, f: NoteForm)
    ensures s.UpdateNoteForm(NoteFormUpdate(Some(f.id), Some(f.title), Some(f.synopsis), Some(f.content),
                                            Some(f.isPublic), f.userId))
            == (if f.userId.Some? then s.SetNoteForm(f) else s.SetNoteForm(f.(userId := s.noteForm.userId)))
  {
  }

  /** The zustand store: the two state fields, changed in place by the four actions. */
  class Store {
    var noteForm: NoteForm
    var currentNoteId: string

    function Current(): State
      reads this
    {
      State(noteForm, currentNoteId)
    }

    constructor ()
      ensures Current() == InitialState
    {
      noteForm := InitialNoteForm;
      currentNoteId := "";
    }

    method SetNoteForm(f: NoteForm)
      modifies this
      ensures Current() == old(Current()).SetNoteForm(f)
    {
      noteForm := f;
    }

    method UpdateNoteForm(u: NoteFormUpdate)
      modifies this
      ensures Current() == old(Current()).UpdateNoteForm(u)
    {
      noteForm := Merge(noteForm, u);
    }

    method SetCurrentNoteId(id: string)
      modifies this
      ensures Current() == old(Current()).SetCurrentNoteId(id)
    {
      currentNoteId := id;
    }

    method ResetNoteForm()
      modifies this
      ensures Current() == old(Current()).ResetNoteForm()
    {
      noteForm := InitialNoteForm;
      currentNoteId := "";
    }
  }
}
