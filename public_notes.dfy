/**
 * The privacy page: the user's notes split into a public and a private list,
 * and the make-public / make-private flow behind a confirmation dialog.
 */
module PublicNotes {
  import opened Wrappers
  import opened Js
  import opened Http
  import opened Notes
  import opened UserStore
  import opened ConfirmDialog

  datatype Privacy = MakePublic | MakePrivate

  /** The notes list is fetched only when logged in; its body is unwrapped as `notes || data || body`. */
  function NotesList(p: Profile, response: Outcome<Envelope<seq<Note>>>): (run: Fetched<seq<Note>>)
    ensures !IsLoggedIn(p) ==> run.requests == [] && run.result == Loaded(None)
    ensures IsLoggedIn(p) ==> run.requests == [Request(Api, Get, "/notes", NoBody)]
    ensures IsLoggedIn(p) && response.Succeeded? ==> run.result == Loaded(Unwrap(response.value))
    ensures IsLoggedIn(p) && response.Failed? ==> run.result == QueryFailed(response.error)
  {
    if !IsLoggedIn(p) then Fetched([], Loaded(None))
    else
      Fetched([Request(Api, Get, "/notes", NoBody)],
              match response
              case Succeeded(body) => Loaded(Unwrap(body))
              case Failed(e) => QueryFailed(e))
  }

  /** `notes.filter(note => note.isPublic == wantPublic)`. */
  function Select(notes: seq<Note>, wantPublic: bool): (r: seq<Note>)
    ensures |r| <= |notes|
    ensures forall i | 0 <= i < |r| :: r[i].isPublic == wantPublic
    ensures forall n | n in notes && n.isPublic == wantPublic :: n in r
    ensures multiset(r) <= multiset(notes)
    decreases |notes|
  {
    if notes == [] then []
    else
      assert notes == [notes[0]] + notes[1..];
      (if notes[0].isPublic == wantPublic then [notes[0]] else []) + Select(notes[1..], wantPublic)
  }

  function PublicOnes(notes: seq<Note>): seq<Note> {
    Select(notes, true)
  }

  function PrivateOnes(notes: seq<Note>): seq<Note> {
    Select(notes, false)
  }

  /**
   * The two lists partition the notes: together they hold every note as
   * often as the list does, the counts add up to the total, and no note is
   * in both.
   */
  lemma {:induction false} Partition(notes: seq<Note>)
    ensures multiset(PublicOnes(notes)) + multiset(PrivateOnes(notes)) == multiset(notes)
    ensures |PublicOnes(notes)| + |PrivateOnes(notes)| == |notes|
    ensures forall n | n in PublicOnes(notes) :: n !in PrivateOnes(notes)
    decreases |notes|
  {
    if notes != [] {
      Partition(notes[1..]);
      assert notes == [notes[0]] + notes[1..];
      assert multiset(notes) == multiset{notes[0]} + multiset(notes[1..]);
    }
  }

  /** Filtering keeps the order: the lists of a concatenation are the concatenated lists. */
  lemma {:induction false} SelectAppend(a: seq<Note>, b: seq<Note>, wantPublic: bool)
    ensures Select(a + b, wantPublic) == Select(a, wantPublic) + Select(b, wantPublic)
    decreases |a|
  {
    if a == [] {
      assert a + b == b;
    } else {
      var ab := a + b;
      assert ab[0] == a[0];
      assert ab[1..] == a[1..] + b;
      SelectAppend(a[1..], b, wantPublic);
    }
  }

  /** After a note's flag flips to public it is in the public list and not in the private one, and back. */
  lemma ToggledNoteMoves(notes: seq<Note>, i: nat, makePublic: bool)
    requires i < |notes|
    ensures var n := notes[i].(isPublic := makePublic);
            var after := notes[i := n];
            n in Select(after, makePublic) && n !in Select(after, !makePublic)
  {
    var n := notes[i].(isPublic := makePublic);
    var after := notes[i := n];
    assert after[i] == n;
  }

  /** `/notes/{id}/public` or `/notes/{id}/private`, chosen by the action. */
  function PrivacyPath(id: string, a: Privacy): (p: string)
    ensures p == NotePath(id) + (if a == MakePublic then "/public" else "/private")
    ensures |p| == 7 + |id| + (if a == MakePublic then 7 else 8)
    ensures p[..7] == "/notes/" && p[7..7 + |id|] == id
    ensures a == MakePublic ==> p[7 + |id|..] == "/public"
    ensures a == MakePrivate ==> p[7 + |id|..] == "/private"
  {
    NotePath(id) + (if a == MakePublic then "/public" else "/private")
  }

  /** The toast after the toggle settles: its kind follows the outcome, its text the action. */
  function PrivacyNotice(a: Privacy, o: Outcome<()>): (n: Notice)
    ensures n.Success? <==> o.Succeeded?
    ensures n == Success("Note made public successfully") <==> a == MakePublic && o.Succeeded?
    ensures n == Success("Note made private successfully") <==> a == MakePrivate && o.Succeeded?
    ensures n == Failure("Failed to make note public") <==> a == MakePublic && o.Failed?
    ensures n == Failure("Failed to make note private") <==> a == MakePrivate && o.Failed?
  {
    match (a, o)
    case (MakePublic, Succeeded(_)) => Success("Note made public successfully")
    case (MakePrivate, Succeeded(_)) => Success("Note made private successfully")
    case (MakePublic, Failed(_)) => Failure("Failed to make note public")
    case (MakePrivate, Failed(_)) => Failure("Failed to make note private")
  }

  class Page {
    var isProcessing: Option<string>
    var privacyDialogOpen: bool
    var noteToTogglePrivacy: Option<string>
    var privacyAction: Privacy

    function PrivacySlot(): Slot
      reads this
    {
      Slot(privacyDialogOpen, noteToTogglePrivacy)
    }

    /** A note's privacy buttons are disabled iff it is the note being processed. */
    predicate ActionsDisabled(id: string)
      reads this
    {
      isProcessing == Some(id)
    }

    /** The dialog's confirm button is disabled while any note is processed. */
    predicate ConfirmDisabled()
      reads this
    {
      isProcessing.Some?
    }

    constructor ()
      ensures PrivacySlot() == Closed && isProcessing.None? && privacyAction == MakePublic
    {
      isProcessing := None;
      privacyDialogOpen, noteToTogglePrivacy := false, None;
      privacyAction := MakePublic;
    }

    /** `handlePrivacyToggle(id, a)`: target, action and open flag set, nothing else. */
    method HandlePrivacyToggle(id: string, a: Privacy)
      modifies this
      ensures PrivacySlot() == old(PrivacySlot()).Ask(id)
      ensures privacyAction == a && isProcessing == old(isProcessing)
    {
      noteToTogglePrivacy := Some(id);
      privacyAction := a;
      privacyDialogOpen := true;
    }

    /** The Cancel button: dialog closed and target cleared; the action stays. */
    method CancelPrivacy()
      modifies this
      ensures PrivacySlot() == old(PrivacySlot()).Cancel()
      ensures privacyAction == old(privacyAction) && isProcessing == old(isProcessing)
    {
      privacyDialogOpen := false;
      noteToTogglePrivacy := None;
    }

    method SetPrivacyDialogOpen(open: bool)
      modifies this
      ensures PrivacySlot() == old(PrivacySlot()).SetOpen(open)
      ensures privacyAction == old(privacyAction) && isProcessing == old(isProcessing)
    {
      privacyDialogOpen := open;
    }

    /**
     * `confirmPrivacyToggle` up to the `await`: on a truthy target, one
     * `PATCH` to the endpoint the current action selects.
     */
    method BeginConfirm() returns (sent: Option<Request>)
      modifies this
      ensures !old(PrivacySlot()).Armed() ==> sent.None? && unchanged(this)
      ensures old(PrivacySlot()).Armed() ==>
                sent == Some(Request(Api, Patch, PrivacyPath(old(noteToTogglePrivacy).value, old(privacyAction)), NoBody))
                && isProcessing == old(noteToTogglePrivacy)
                && ActionsDisabled(old(noteToTogglePrivacy).value) && ConfirmDisabled()
                && PrivacySlot() == old(PrivacySlot()) && privacyAction == old(privacyAction)
    {
      if !Truthy(noteToTogglePrivacy) {
        sent := None;
        return;
      }
      isProcessing := noteToTogglePrivacy;
      sent := Some(Request(Api, Patch, PrivacyPath(noteToTogglePrivacy.value, privacyAction), NoBody));
    }

    /**
     * After the response: the toast for the action the handler started with
     * (`a`), and the `finally` reset; the action itself is kept.
     */
    method Finish(a: Privacy, o: Outcome<()>) returns (notice: Notice, refetch: bool)
      modifies this
      ensures isProcessing.None? && PrivacySlot() == Closed && privacyAction == old(privacyAction)
      ensures notice == PrivacyNotice(a, o) && refetch == o.Succeeded?
    {
      notice := PrivacyNotice(a, o);
      refetch := o.Succeeded?;
      isProcessing := None;
      privacyDialogOpen := false;
      noteToTogglePrivacy := None;
    }

    /** A whole confirmation: a no-op without a target, otherwise one request and back to idle. */
    method ConfirmPrivacyToggle(o: Outcome<()>) returns (sent: Option<Request>, notice: Option<Notice>, refetch: bool)
      modifies this
      ensures !old(PrivacySlot()).Armed() ==> sent.None? && notice.None? && !refetch && unchanged(this)
      ensures old(PrivacySlot()).Armed() ==>
                sent == Some(Request(Api, Patch, PrivacyPath(old(noteToTogglePrivacy).value, old(privacyAction)), NoBody))
                && notice == Some(PrivacyNotice(old(privacyAction), o)) && refetch == o.Succeeded?
                && isProcessing.None? && PrivacySlot() == Closed && privacyAction == old(privacyAction)
    {
      var a := privacyAction;
      sent := BeginConfirm();
      if sent.None? {
        notice, refetch := None, false;
        return;
      }
      var n;
      n, refetch := Finish(a, o);
      notice := Some(n);
    }
  }
}
