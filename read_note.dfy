/**
 * The note reader: fetch with the session first and, only if that fails,
 * from the public endpoint; map a failure to a message; decide whether the
 * signed-in user owns the note.
 */
module ReadNote {
  import opened Wrappers
  import opened Js
  import opened Http
  import opened Notes

  /**
   * The query, with both possible responses as inputs. Without an id it is
   * disabled: its function (whose own guard would throw "Note ID is
   * required") never runs, nothing is requested and no note arrives.
   */
  function Fetch(id: Option<string>, auth: Outcome<Envelope<Note>>, public: Outcome<Envelope<Note>>): (run: Fetched<Note>)
    ensures !QueryEnabled(id) ==> run == Fetched([], Loaded(None))
    ensures QueryEnabled(id) ==> 1 <= |run.requests| <= 2
                                 && run.requests[0] == Request(Api, Get, NotePath(id.value), NoBody)
    ensures QueryEnabled(id) ==> (|run.requests| == 2 <==> auth.Failed?)
    ensures QueryEnabled(id) && auth.Succeeded? ==> run.result == Loaded(Unwrap(auth.value))
    ensures QueryEnabled(id) && auth.Failed? ==>
              run.requests[1] == Request(PublicApi, Get, "public/notes/" + id.value, NoBody)
              && run.result == (match public
                                case Succeeded(body) => Loaded(Unwrap(body))
                                case Failed(e) => QueryFailed(e))
  {
    if !QueryEnabled(id) then
      Fetched([], Loaded(None))
    else
      var first := Request(Api, Get, NotePath(id.value), NoBody);
      match auth
      case Succeeded(body) => Fetched([first], Loaded(Unwrap(body)))
      case Failed(_) =>
        var second := Request(PublicApi, Get, "public/notes/" + id.value, NoBody);
        match public
        case Succeeded(body) => Fetched([first, second], Loaded(Unwrap(body)))
        case Failed(e) => Fetched([first, second], QueryFailed(e))
  }

  /** The error panel's text: 403 and 404 have fixed texts, anything else the error's message or a default. */
  function ErrorMessage(e: HttpError): (m: string)
    ensures m != ""
    ensures e.status == Some(403) ==> m == "You don't have permission to view this note"
    ensures e.status == Some(404) ==> m == "Note not found"
    ensures e.status != Some(403) && e.status != Some(404) && e.message != "" ==> m == e.message
    ensures e.status != Some(403) && e.status != Some(404) && e.message == "" ==> m == "Failed to load note"
  {
    if e.status == Some(403) then "You don't have permission to view this note"
    else if e.status == Some(404) then "Note not found"
    else FirstTruthy([e.message], "Failed to load note")
  }

  /** `note && userId ? note.userId === userId : false`. */
  function IsOwner(note: Option<Note>, userId: string): (b: bool)
    ensures b <==> note.Some? && userId != "" && note.value.userId == userId
  {
    if note.Some? && userId != "" then note.value.userId == userId else false
  }

  datatype Display = ErrorView(message: string) | NoteView(note: Note, isOwner: bool)

  /** What the page shows once the query settled. */
  function DisplayOf(r: QueryResult<Note>, userId: string): (d: Display)
    ensures r.QueryFailed? ==> d == ErrorView(ErrorMessage(r.error))
    ensures r == Loaded(None) ==> d == ErrorView("Note not found.")
    ensures d.NoteView? <==> r.Loaded? && r.value.Some?
    ensures d.NoteView? ==> d.note == r.value.value && d.isOwner == IsOwner(r.value, userId)
  {
    match r
    case QueryFailed(e) => ErrorView(ErrorMessage(e))
    case Loaded(None) => ErrorView("Note not found.")
    case Loaded(Some(n)) => NoteView(n, IsOwner(r.value, userId))
  }

  /** Without an id nothing is fetched and the page reports the note as not found. */
  lemma NoIdShowsNotFound(id: Option<string>, auth: Outcome<Envelope<Note>>, public: Outcome<Envelope<Note>>, userId: string)
    requires !QueryEnabled(id)
    ensures Fetch(id, auth, public).requests == []
    ensures DisplayOf(Fetch(id, auth, public).result, userId) == ErrorView("Note not found.")
  {
  }

  /** Only a note the signed-in user owns is shown with the owner's controls. */
  lemma OwnerControlsNeedOwnership(r: QueryResult<Note>, userId: string)
    requires DisplayOf(r, userId).NoteView? && DisplayOf(r, userId).isOwner
    ensures userId != "" && DisplayOf(r, userId).note.userId == userId
  {
  }

  /** A failed authenticated fetch is never shown: the public fetch decides what the user sees. */
  lemma PublicFallbackDecides(id: string, authError: HttpError, public: Outcome<Envelope<Note>>, userId: string)
    requires id != ""
    ensures DisplayOf(Fetch(Some(id), Failed(authError), public).result, userId)
            == DisplayOf(Fetch(Some(id), Failed(HttpError(Some(500), None, "")), public).result, userId)
  {
  }

  /** The page's `isOwner` state and the effect that keeps it in step with the note and the user. */
  class OwnerState {
    var isOwner: bool

    constructor ()
      ensures !isOwner
    {
      isOwner := false;
    }

    method Sync(note: Option<Note>, userId: string)
      modifies this
      ensures isOwner == IsOwner(note, userId)
    {
      if note.Some? && userId != "" {
        isOwner := note.value.userId == userId;
      } else {
        isOwner := false;
      }
    }
  }
}
