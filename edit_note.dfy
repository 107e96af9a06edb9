/**
 * The edit-note page: fetch the note by the route id, copy its title,
 * synopsis and content into the form, and `PATCH /notes/{id}` with exactly
 * those three fields.
 */
module EditNote {
  import opened Wrappers
  import opened Js
  import opened Http
  import opened Notes

  datatype Fields = Fields(title: string, synopsis: string, content: string)

  const MissingId := "Note ID is required"

  /**
   * The query: without an id it is disabled, so its function (whose own
   * guard would throw `MissingId`) never runs, nothing is requested and no
   * note arrives; with an id it issues one `GET /notes/{id}` and unwraps
   * `note || data || body`.
   */
  function Fetch(id: Option<string>, response: Outcome<Envelope<Note>>): (run: Fetched<Note>)
    ensures !QueryEnabled(id) ==> run == Fetched([], Loaded(None))
    ensures QueryEnabled(id) ==> run.requests == [Request(Api, Get, NotePath(id.value), NoBody)]
    ensures QueryEnabled(id) && response.Succeeded? ==> run.result == Loaded(Unwrap(response.value))
    ensures QueryEnabled(id) && response.Failed? ==> run.result == QueryFailed(response.error)
  {
    if !QueryEnabled(id) then
      Fetched([], Loaded(None))
    else
      Fetched([Request(Api, Get, NotePath(id.value), NoBody)],
              match response
              case Succeeded(body) => Loaded(Unwrap(body))
              case Failed(e) => QueryFailed(e))
  }

  datatype View = NotFoundView | FormView(note: Note)

  /** The error view is shown when the fetch failed or returned no note. */
  function ViewOf(r: QueryResult<Note>): (v: View)
    ensures v.NotFoundView? <==> r.QueryFailed? || r.value.None?
    ensures v.FormView? ==> r == Loaded(Some(v.note))
  {
    match r
    case Loaded(Some(n)) => FormView(n)
    case _ => NotFoundView
  }

  /**
   * `handleSubmit` and the mutation function: an empty field is rejected;
   * without an id the mutation throws "Note ID is required" before sending;
   * otherwise exactly one update carrying title, synopsis and content only.
   */
  function Submit(id: Option<string>, f: Fields): (r: SubmitOutcome)
    ensures r.ValidationError? <==> f.title == "" || f.synopsis == "" || f.content == ""
    ensures r.ValidationError? ==> r.message == "Please fill in all required fields"
    ensures r.MutationError? <==> !r.ValidationError? && !Truthy(id)
    ensures r.MutationError? ==> r.message == MissingId && DerivedMessage(HttpError(None, None, r.message)) == MissingId
    ensures r.Send? <==> f.title != "" && f.synopsis != "" && f.content != "" && Truthy(id)
    ensures r.Send? ==> r.request == Request(Api, Patch, NotePath(id.value), UpdateNoteBody(f.title, f.synopsis, f.content))
    ensures !r.PasswordMismatch?
  {
    if f.title == "" || f.synopsis == "" || f.content == "" then
      ValidationError("Please fill in all required fields")
    else if !Truthy(id) then
      MutationError(MissingId)
    else
      Send(Request(Api, Patch, NotePath(id.value), UpdateNoteBody(f.title, f.synopsis, f.content)))
  }

  /** `onSuccess` / `onError` of the update: toast, and the dashboard on success only. */
  function Settle(o: Outcome<()>): (done: Settled)
    ensures o.Succeeded? ==> done == Settled(Success("Note updated successfully!"), Some("/dashboard"))
    ensures o.Failed? ==> done.nav.None? && done.notice == Failure(DerivedMessage(o.error))
  {
    match o
    case Succeeded(_) => Settled(Success("Note updated successfully!"), Some("/dashboard"))
    case Failed(e) => Settled(Failure(DerivedMessage(e)), None)
  }

  /** Resubmitting a loaded note unchanged updates that note with its own three fields. */
  lemma ResubmitLoadedNote(id: string, response: Envelope<Note>, n: Note)
    requires id != "" && Unwrap(response) == Some(n)
    requires n.title != "" && n.synopsis != "" && n.content != ""
    ensures ViewOf(Fetch(Some(id), Succeeded(response)).result) == FormView(n)
    ensures Submit(Some(id), Fields(n.title, n.synopsis, n.content))
            == Send(Request(Api, Patch, "/notes/" + id, UpdateNoteBody(n.title, n.synopsis, n.content)))
  {
  }

  class Page {
    var title: string
    var synopsis: string
    var content: string

    function Form(): Fields
      reads this
    {
      Fields(title, synopsis, content)
    }

    constructor ()
      ensures Form() == Fields("", "", "")
    {
      title, synopsis, content := "", "", "";
    }

    /** The populate effect: once a note is loaded the form holds its title, synopsis and content. */
    method Populate(note: Option<Note>)
      modifies this
      ensures note.Some? ==> Form() == Fields(note.value.title, note.value.synopsis, note.value.content)
      ensures note.None? ==> Form() == old(Form())
    {
      if note.Some? {
        title := note.value.title;
        synopsis := note.value.synopsis;
        content := note.value.content;
      }
    }
  }
}
