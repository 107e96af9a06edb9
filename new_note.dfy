/**
 * The new-note page: a presence gate on title, synopsis and content, one
 * `POST /notes` that creates a private, not-deleted note, and the form reset
 * on success.
 */
module NewNote {
  import opened Wrappers
  import opened Http

  datatype Fields = Fields(title: string, synopsis: string, content: string)

  const Blank := Fields("", "", "")

  /** `handleSubmit`: any empty field is rejected; otherwise exactly one create request. */
  function Submit(f: Fields): (r: SubmitOutcome)
    ensures r.ValidationError? <==> f.title == "" || f.synopsis == "" || f.content == ""
    ensures r.ValidationError? ==> r.message == "Please fill in all required fields"
    ensures r.ValidationError? || r.Send?
    ensures r.Send? ==> r.request.client == Api && r.request.verb == Post && r.request.path == "/notes"
    ensures r.Send? ==> r.request.body == CreateNoteBody(f.title, f.synopsis, f.content, false, false)
  {
    if f.title == "" || f.synopsis == "" || f.content == "" then
      ValidationError("Please fill in all required fields")
    else
      Send(Request(Api, Post, "/notes", CreateNoteBody(f.title, f.synopsis, f.content, false, false)))
  }

  class Page {
    var title: string
    var synopsis: string
    var content: string

    function Form(): Fields
      reads this
    {
      Fields(title, synopsis, content)
    }

    constructor ()
      ensures Form() == Blank
    {
      title, synopsis, content := "", "", "";
    }

    /** `onSuccess`: the three fields become "", a success toast, navigation to the dashboard. */
    method OnSuccess() returns (done: Settled)
      modifies this
      ensures Form() == Blank
      ensures done == Settled(Success("Note created successfully!"), Some("/dashboard"))
    {
      title := "";
      synopsis := "";
      content := "";
      done := Settled(Success("Note created successfully!"), Some("/dashboard"));
    }
  }

  /** `onError`: the four-step message, no navigation, the form kept. */
  function OnError(e: HttpError): (done: Settled)
    ensures done.notice.Failure? && done.nav.None?
    ensures done.notice.text == DerivedMessage(e)
  {
    Settled(Failure(DerivedMessage(e)), None)
  }
}
