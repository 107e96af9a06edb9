/**
 * The wire side of the client as the pages see it: a request is recorded as a
 * value (which HTTP client, verb, path, JSON body), a response is an input,
 * and the two conventions every page repeats are defined once here: the
 * error-message fallback chains and the `x.note || x.data || x` unwrap.
 */
module Http {
  import opened Wrappers
  import opened Js

  /** `api` sends the session cookie; `publicApi` does not. */
  datatype Client = Api | PublicApi

  datatype Verb = Get | Post | Patch | Delete

  /** The JSON bodies the client sends; each variant has exactly the keys the page puts in it. */
  datatype Body =
    | NoBody
    | EmptyObject
    | RegisterBody(firstName: string, lastName: string, emailAddress: string, username: string, password: string)
    | LoginBody(emailAddress: string, password: string)
    | CreateNoteBody(title: string, synopsis: string, content: string, isPublic: bool, isDeleted: bool)
    | UpdateNoteBody(title: string, synopsis: string, content: string)
    | ProfileBody(firstName: string, lastName: string, username: string, emailAddress: string)
    | PasswordBody(currentPassword: string, newPassword: string)

  datatype Request = Request(client: Client, verb: Verb, path: string, body: Body)

  /** `error.response.data` of a failed request: `message`, `error` and the messages of `errors[]`. */
  datatype ErrorBody = ErrorBody(message: string, error: string, errors: seq<string>)

  /**
   * A rejected request or a thrown `Error`: the response status and body when
   * the server answered, and the error's own `message`.
   */
  datatype HttpError = HttpError(status: Option<int>, data: Option<ErrorBody>, message: string)

  /** What the network (or the request function) delivered. */
  datatype Outcome<+T> = Succeeded(value: T) | Failed(error: HttpError)

  /** A toast: success or failure, with its description. */
  datatype Notice = Success(text: string) | Failure(text: string)

  /** The toast after a request with fixed texts: `ok` on success, `failed` on any error. */
  function OutcomeNotice<T>(o: Outcome<T>, ok: string, failed: string): (n: Notice)
    ensures n.Success? <==> o.Succeeded?
    ensures n.text == (if o.Succeeded? then ok else failed)
  {
    if o.Succeeded? then Success(ok) else Failure(failed)
  }

  /**
   * What a form's `handleSubmit` does: rejects with a validation toast,
   * rejects with the password-mismatch toast, issues exactly one request, or
   * starts a mutation whose request function throws before sending.
   */
  datatype SubmitOutcome =
    | ValidationError(message: string)
    | PasswordMismatch
    | Send(request: Request)
    | MutationError(message: string)

  /** What a form mutation's `onSuccess`/`onError` leave behind: a toast and, maybe, a navigation. */
  datatype Settled = Settled(notice: Notice, nav: Option<string>)

  /** A query's result: the unwrapped payload (`None` when nothing was returned) or the error. */
  datatype QueryResult<+T> = Loaded(value: Option<T>) | QueryFailed(error: HttpError)

  /** One run of a query function: the requests it issued, in order, and its result. */
  datatype Fetched<+T> = Fetched(requests: seq<Request>, result: QueryResult<T>)

  /** `/notes/{id}`: the note resource that the fetch, update and delete requests address. */
  function NotePath(id: string): (p: string)
    ensures |p| == |id| + 7 && p[..7] == "/notes/" && p[7..] == id
  {
    "/notes/" + id
  }

  /** A note query runs only when the route has an id (`enabled: !!id`). */
  predicate QueryEnabled(id: Option<string>) {
    Truthy(id)
  }

  /** The server-supplied candidates of the four-step chain, in order. */
  function ServerCandidates(e: HttpError): (c: seq<string>)
    ensures |c| == 3
  {
    match e.data
    case None => ["", "", ""]
    case Some(b) => [b.message, b.error, if |b.errors| > 0 then b.errors[0] else ""]
  }

  /** `error?.response?.data?.message`, "" when absent. */
  function ServerMessage(e: HttpError): string {
    match e.data
    case None => ""
    case Some(b) => b.message
  }

  /**
   * `data?.message || data?.error || data?.errors?.[0]?.message || error?.message`,
   * the message every form mutation's `onError` derives.
   */
  function DerivedMessage(e: HttpError): (r: string)
    ensures IsFirstTruthy(ServerCandidates(e), e.message, r)
    ensures e.data.Some? && e.data.value.message != "" ==> r == e.data.value.message
    ensures e.data.Some? && e.data.value.message == "" && e.data.value.error != ""
            ==> r == e.data.value.error
    ensures e.data.None? ==> r == e.message
    ensures r != "" <==> (e.message != "" || exists i | 0 <= i < 3 :: ServerCandidates(e)[i] != "")
  {
    var c := ServerCandidates(e);
    FirstTruthyMeetsSpec(c, e.message);
    if c[0] == "" && c[1] != "" then
      FirstTruthyAt(c, e.message, 1);
      FirstTruthy(c, e.message)
    else
      FirstTruthy(c, e.message)
  }

  /**
   * `error?.response?.data?.message || error?.message || fallback`, the
   * shorter chain of the profile and password pages; never empty when the
   * fallback is not.
   */
  function MessageOr(e: HttpError, fallback: string): (r: string)
    ensures IsFirstTruthy([ServerMessage(e), e.message], fallback, r)
    ensures ServerMessage(e) != "" ==> r == ServerMessage(e)
    ensures ServerMessage(e) == "" && e.message != "" ==> r == e.message
    ensures ServerMessage(e) == "" && e.message == "" ==> r == fallback
  {
    var c := [ServerMessage(e), e.message];
    FirstTruthyMeetsSpec(c, fallback);
    if c[0] == "" && c[1] != "" then
      FirstTruthyAt(c, fallback, 1);
      FirstTruthy(c, fallback)
    else
      FirstTruthy(c, fallback)
  }

  /**
   * A JSON response body as the pages read it: the payload under the
   * page's own key (`note` or `notes`), under `data`, or the body itself.
   * `raw == None` stands for a falsy body that is not `null` (`""`, `0`,
   * `false`), which reaches `|| body` and yields nothing. A `null` or absent
   * body makes `body.note` throw, so it is modelled as a `Failed` outcome.
   */
  datatype Envelope<+T> = Envelope(primary: Option<T>, data: Option<T>, raw: Option<T>)

  /** `body.note || body.data || body` (resp. `body.notes || ...`). */
  function Unwrap<T>(e: Envelope<T>): (r: Option<T>)
    ensures r.Some? <==> e.primary.Some? || e.data.Some? || e.raw.Some?
    ensures e.primary.Some? ==> r == e.primary
    ensures e.primary.None? && e.data.Some? ==> r == e.data
    ensures e.primary.None? && e.data.None? ==> r == e.raw
  {
    if e.primary.Some? then e.primary
    else if e.data.Some? then e.data
    else e.raw
  }
}
