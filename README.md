# notely client — a verified model of its form, dialog and store logic

The notely client is a React front end for a note-taking service. Almost all
of it is rendering and HTTP plumbing. What remains is a set of small
sequential rules, and this project models them in Dafny:

- **The note-form store** (`NoteStore`): a container holding the note being
  edited and the current note id. Its operations are replace, partial merge,
  set id and reset. The store is a class whose methods are specified by
  transitions on a `State` value.
- **The submit gates of the six forms** (`Register`, `Login`, `NewNote`,
  `EditNote`, `UpdateProfile`, `UpdatePassword`). Each `handleSubmit` yields
  exactly one `SubmitOutcome`:
  - a validation error;
  - a password mismatch;
  - an error raised by the mutation itself;
  - exactly one recorded request (client, verb, path, body).

  The `onSuccess` field resets are methods on the page classes. Where a
  handler touches only the user store (`UpdateProfile.OnSuccess`,
  `UpdateProfile.AfterDelay`), it is a module-level method taking the
  store. The `onError` texts are functions of the HTTP error.
- **The server-error message chains** (`Http`).
  - The register, login, new-note and edit-note mutations'
    `message || error || errors[0].message || error.message`.
  - The shorter `message || error.message || fallback` of the profile
    mutation and the password handler.
  - The `note || data || raw` and `notes || data || raw` response unwraps.

  JavaScript's `||` on strings is modelled by `Js.FirstTruthy`.
- **The confirmation dialogs**:
  - trash on the dashboard (`Dashboard`);
  - restore and permanent delete, which share one processing slot (`NoteTrash`);
  - the privacy toggle with its action (`PublicNotes`).

  One dialog's open flag and target are a `ConfirmDialog.Slot`. Each page's
  confirm handler is split into two parts:
  - the part before the `await` (`Begin…`), which issues the request;
  - the `try`/`catch`/`finally` after it (`Finish…`).

  The network's answer is an input.
- **The public/private partition** of the notes list (`PublicNotes`).
- **The note reader** (`ReadNote`):
  - the authenticated fetch with a public fallback;
  - the status-to-message mapping;
  - the owner check.
- **The top bar** (`TopNavBar`): name initials, the avatar text and logout.
- **The user store** (`UserStore`), as far as these components use it.

Requests are values of `Http.Request`. A response is an `Outcome` input.
Toasts are `Notice` values and navigations are path strings.

## Model

| member | source | states |
|---|---|---|
| Js.FirstTruthy | src/pages/Dashboard/AuthorRegister.tsx:48-52 | `a \|\| b \|\| … \|\| last` on strings: the result is one of the operands, and it is "" only if every operand is "" |
| Js.FirstTruthyMeetsSpec | src/pages/Dashboard/AuthorRegister.tsx:48-52 | the chain's result meets the reference definition: the first non-empty candidate preceded only by empty ones, or `last` when all candidates are empty |
| Js.FirstTruthyAt | src/pages/Dashboard/AuthorRegister.tsx:48-52 | the chain stops at the first non-empty operand |
| Http.DerivedMessage | src/pages/Dashboard/AuthorRegister.tsx:47-52 | the error text is server `message`, else server `error`, else `errors[0].message`, else the transport message; a present server message always wins; with no response body the transport message is used; the text is empty only if all four are |
| Http.MessageOr | src/pages/Dashboard/UpdateProfile.tsx:46 | server `message`, else the transport message, else the fallback, in that order |
| Http.Unwrap | src/pages/notely/ReadNote.tsx:47 | the unwrapped body is `note` if present, else `data`, else the raw body; it is absent only if all three are |
| UserStore.Store.SetUser | src/pages/Dashboard/Register.tsx:45 | the store holds exactly the given user |
| UserStore.Store.SetProfileFields | src/pages/Dashboard/UpdateProfile.tsx:31-36 | the four profile fields take the given values and the user id is kept |
| UserStore.Store.ClearUser | src/pages/Dashboard/TopNavBar.tsx:25 | the store is emptied, so the user is no longer logged in |
| UserStore.CheckAuthStatus | src/pages/Dashboard/Dashboard.tsx:53-66 | one `GET /auth/me`; the store holds the returned user on success and is cleared on failure |
| UserStore.LoginRedirect | src/pages/Dashboard/Dashboard.tsx:116-125 | once the auth check is over, a logged-out visitor is sent to `/dashboard/login`, and only then |
| NoteStore.State.SetNoteForm | src/Store/noteStore.tsx:39 | the form becomes the given form; `currentNoteId` is unchanged |
| NoteStore.State.UpdateNoteForm | src/Store/noteStore.tsx:41-43 | each field present in the update takes its value, each absent field keeps its old value, `currentNoteId` is unchanged, and the empty update changes nothing |
| NoteStore.State.SetCurrentNoteId | src/Store/noteStore.tsx:45 | only `currentNoteId` changes |
| NoteStore.State.ResetNoteForm | src/Store/noteStore.tsx:47-50 | the form is the initial form (empty strings, `isPublic` false, no user id) and `currentNoteId` is "" |
| NoteStore.Combine | src/Store/noteStore.tsx:41-43 | merging two partial updates, the later one winning per field, has the empty update as identity on both sides |
| NoteStore.UpdateTwiceIsCombined | src/Store/noteStore.tsx:41-43 | two successive updates equal one update with the merged partial, the later value winning per field |
| NoteStore.UpdateIdempotent | src/Store/noteStore.tsx:41-43 | applying the same update twice equals applying it once |
| NoteStore.ResetIdempotent | src/Store/noteStore.tsx:47-50 | resetting twice equals resetting once, and a reset erases any earlier set, update or id change |
| NoteStore.FullUpdateIsSet | src/Store/noteStore.tsx:39-43 | an update that names every field of a form (with a user id) is the same as replacing the form |
| NoteStore.Store.constructor | src/Store/noteStore.tsx:27-37 | a fresh store holds the initial form and `currentNoteId` "" |
| NoteStore.Store.SetNoteForm | src/Store/noteStore.tsx:39 | the store's new state is the `SetNoteForm` transition of its old state |
| NoteStore.Store.UpdateNoteForm | src/Store/noteStore.tsx:41-43 | the store's new state is the `UpdateNoteForm` transition of its old state |
| NoteStore.Store.SetCurrentNoteId | src/Store/noteStore.tsx:45 | the store's new state is the `SetCurrentNoteId` transition of its old state |
| NoteStore.Store.ResetNoteForm | src/Store/noteStore.tsx:47-50 | the store's new state is the initial state |
| Register.Submit | src/pages/Dashboard/Register.tsx:60-78 | any empty field gives "Please provide all required fields"; the mismatch is reported only when all six are present; otherwise exactly one `POST /auth/register` carries the five fields without the confirmation; the three outcomes exclude each other |
| Register.OnError | src/pages/Dashboard/Register.tsx:49-57 | the failure toast carries the four-step derived message |
| Register.Page.constructor | src/pages/Dashboard/AuthorRegister.tsx:20-25 | the six fields start empty |
| Register.Page.OnSuccess | src/pages/Dashboard/AuthorRegister.tsx:34-45 | all six fields become "", the store holds the returned user, navigation to `/dashboard` |
| Login.Submit | src/pages/Dashboard/Login.tsx:50-57 | an empty email or password gives a validation error; otherwise exactly one `POST /auth/login` with `{emailAddress, password}` |
| Login.OnError | src/pages/Dashboard/AuthorLogin.tsx:37-45 | the failure toast carries the four-step derived message |
| Login.Page.constructor | src/pages/Dashboard/Login.tsx:19-20 | both fields start empty |
| Login.Page.OnSuccess | src/pages/Dashboard/AuthorLogin.tsx:30-36 | both fields become "", the store holds the returned user, navigation to `/dashboard` |
| NewNote.Submit | src/pages/Dashboard/NewNote.tsx:49-64 | an empty title, synopsis or content gives "Please fill in all required fields"; otherwise one `POST /notes` with the three fields, `isPublic` false and `isDeleted` false |
| NewNote.Page.constructor | src/pages/Dashboard/NewNote.tsx:16-18 | the three fields start empty |
| NewNote.Page.OnSuccess | src/pages/Dashboard/NewNote.tsx:31-37 | the three fields become "", "Note created successfully!", navigation to `/dashboard` |
| NewNote.OnError | src/pages/Dashboard/NewNote.tsx:38-46 | a failure with the four-step derived message and no navigation |
| Http.OutcomeNotice | src/pages/Dashboard/Dashboard.tsx:105-108 | a request with fixed toast texts gives the success text exactly on success and the failure text on any error |
| Http.NotePath | src/pages/Dashboard/EditNote.tsx:28 | `/notes/` followed by exactly the id |
| EditNote.Fetch | src/pages/Dashboard/EditNote.tsx:24-32 | without an id the query is disabled: its function never runs, nothing is requested and no note arrives; otherwise one `GET /notes/{id}` and the unwrapped body, or the request's error |
| EditNote.ViewOf | src/pages/Dashboard/EditNote.tsx:94 | the not-found view is shown exactly when the fetch failed or returned no note |
| EditNote.Submit | src/pages/Dashboard/EditNote.tsx:43-80 | empty fields give a validation error; a missing id then fails with "Note ID is required" and sends nothing; otherwise one `PATCH /notes/{id}` with exactly title, synopsis and content |
| EditNote.Settle | src/pages/Dashboard/EditNote.tsx:52-64 | success gives "Note updated successfully!" and `/dashboard`; failure gives the derived message and no navigation |
| EditNote.ResubmitLoadedNote | src/pages/Dashboard/EditNote.tsx:24-80 | a loaded note with non-empty fields is shown in the form, and submitting it unchanged sends its own fields back to the same path |
| EditNote.Page.constructor | src/pages/Dashboard/EditNote.tsx:19-21 | the three fields start empty |
| EditNote.Page.Populate | src/pages/Dashboard/EditNote.tsx:35-41 | once a note is present the form equals its title, synopsis and content; with no note the form is kept |
| UpdateProfile.ProfileRequest | src/pages/Dashboard/UpdateProfile.tsx:23-27 | `PATCH /users/profile` carrying exactly the four fields |
| UpdateProfile.Submit | src/pages/Dashboard/UpdateProfile.tsx:53-62 | any empty field gives "All fields are required"; otherwise exactly the profile request |
| UpdateProfile.OnError | src/pages/Dashboard/UpdateProfile.tsx:44-50 | the message is server `message`, else the transport message, else "Failed to update profile", so it is never empty; the retry re-issues the same variables |
| UpdateProfile.RetryRepeatsRequest | src/pages/Dashboard/UpdateProfile.tsx:44-49 | the retry sends the identical request the submit sent |
| UpdateProfile.Page.constructor | src/pages/Dashboard/UpdateProfile.tsx:14-19 | the form starts equal to the store's first name, last name, username and email |
| UpdateProfile.OnSuccess | src/pages/Dashboard/UpdateProfile.tsx:28-36 | a "Profile updated!" toast; the store takes the four returned fields and keeps the user id |
| UpdateProfile.AfterDelay | src/pages/Dashboard/UpdateProfile.tsx:39-42 | the store is cleared and navigation goes to `/dashboard/login` |
| UpdatePassword.Submit | src/pages/Dashboard/UpdatePassword.tsx:22-32 | "Passwords do not match" exactly when new and confirmation differ (equal empty strings pass); otherwise one `PATCH /auth/password` with `{currentPassword, newPassword}` |
| UpdatePassword.Settle | src/pages/Dashboard/UpdatePassword.tsx:28-37 | success gives "Password updated successfully!" and `/dashboard/profile`; failure gives server `message`, else the transport message, else "Failed to update password" |
| UpdatePassword.Page.constructor | src/pages/Dashboard/UpdatePassword.tsx:11-15 | empty fields, not loading |
| UpdatePassword.Page.Begin | src/pages/Dashboard/UpdatePassword.tsx:18-26 | the submit outcome of the current form; still loading exactly when a request went out |
| UpdatePassword.Page.Finish | src/pages/Dashboard/UpdatePassword.tsx:28-40 | the settled toast and navigation, and loading is off |
| UpdatePassword.Page.HandleSubmit | src/pages/Dashboard/UpdatePassword.tsx:18-41 | loading is off after every path; a mismatch sends nothing; otherwise one request and the settled result |
| ConfirmDialog.Slot.Ask | src/pages/Dashboard/Dashboard.tsx:93-96 | the dialog opens on the given note |
| ConfirmDialog.Slot.Cancel | src/pages/Dashboard/Dashboard.tsx:305-308 | the dialog is closed and its target cleared |
| ConfirmDialog.Slot.SetOpen | src/pages/Dashboard/Dashboard.tsx:294 | only the open flag changes |
| ConfirmDialog.Step | src/pages/Dashboard/Dashboard.tsx:98-114 | a request is issued exactly on a confirm with a target, and it is for that target; such a confirm closes the dialog, and one without a target changes nothing |
| ConfirmDialog.RequestsBounded | src/pages/Dashboard/Dashboard.tsx:93-114 | over any sequence of interactions there are no more requests than confirms, and no more than the notes asked for (plus one if a target was already set) |
| ConfirmDialog.RequestsWereAsked | src/pages/Dashboard/Dashboard.tsx:93-114 | every note a request is issued for was asked for by its button, or was the initial target |
| Dashboard.TrashPath | src/pages/Dashboard/Dashboard.tsx:103 | `/notes/trash/` followed by exactly the id |
| Dashboard.NotePagePath | src/pages/Dashboard/Dashboard.tsx:83 | `/dashboard/notes/` followed by exactly the id |
| Dashboard.EditPagePath | src/pages/Dashboard/Dashboard.tsx:89 | the note page path followed by `/edit` |
| Dashboard.TrashNotice | src/pages/Dashboard/Dashboard.tsx:105-108 | "Note moved to trash" on success and "Failed to move note to trash" on failure |
| Dashboard.Page.constructor | src/pages/Dashboard/Dashboard.tsx:45-48 | dialog closed, no target, nothing processing |
| Dashboard.Page.HandleTrashNote | src/pages/Dashboard/Dashboard.tsx:93-96 | the dialog opens on the note and the processing slot is untouched |
| Dashboard.Page.CancelTrash | src/pages/Dashboard/Dashboard.tsx:305-308 | the dialog closes, the target is cleared, the processing slot is untouched |
| Dashboard.Page.SetTrashDialogOpen | src/pages/Dashboard/Dashboard.tsx:294 | only the open flag changes |
| Dashboard.Page.BeginConfirm | src/pages/Dashboard/Dashboard.tsx:98-103 | without a target nothing changes and nothing is sent; otherwise the target is the processing note, its buttons and the confirm button are disabled, and one `PATCH /notes/trash/{id}` goes out |
| Dashboard.Page.Finish | src/pages/Dashboard/Dashboard.tsx:104-113 | on success and on failure alike the page is idle again; the toast follows the outcome; the list is refetched only on success |
| Dashboard.Page.ConfirmTrashNote | src/pages/Dashboard/Dashboard.tsx:98-114 | no-op without a target; otherwise exactly one request and back to idle whatever the outcome; the dialog follows `ConfirmDialog.Step` |
| NoteTrash.RestorePath | src/pages/Dashboard/NoteTrash.tsx:69 | the trash path of the note followed by `/restore` |
| NoteTrash.DeletePath | src/pages/Dashboard/NoteTrash.tsx:103 | the note's resource path followed by `?permanent=true`: `/notes/`, exactly the id, then the query |
| NoteTrash.RestoreNotice | src/pages/Dashboard/NoteTrash.tsx:71-74 | "Note restored successfully" on success, "Failed to restore note. Please try again." on failure |
| NoteTrash.DeleteNotice | src/pages/Dashboard/NoteTrash.tsx:105-108 | "Note permanently deleted" on success, "Failed to delete note. Please try again." on failure |
| NoteTrash.Page.constructor | src/pages/Dashboard/NoteTrash.tsx:43-47 | both dialogs closed without targets, nothing processing |
| NoteTrash.Page.HandleRestore | src/pages/Dashboard/NoteTrash.tsx:59-62 | the restore dialog opens on the note; the delete dialog and the processing slot are untouched |
| NoteTrash.Page.HandleDelete | src/pages/Dashboard/NoteTrash.tsx:93-96 | the delete dialog opens on the note; the restore dialog and the processing slot are untouched |
| NoteTrash.Page.CancelRestore | src/pages/Dashboard/NoteTrash.tsx:329-332 | the restore dialog closes and clears only its own target |
| NoteTrash.Page.CancelDelete | src/pages/Dashboard/NoteTrash.tsx:292-295 | the delete dialog closes and clears only its own target |
| NoteTrash.Page.SetRestoreDialogOpen | src/pages/Dashboard/NoteTrash.tsx:318 | only the restore dialog's open flag changes |
| NoteTrash.Page.SetDeleteDialogOpen | src/pages/Dashboard/NoteTrash.tsx:281 | only the delete dialog's open flag changes |
| NoteTrash.Page.BeginRestore | src/pages/Dashboard/NoteTrash.tsx:64-69 | without a target nothing changes; otherwise the shared processing slot holds the note, so its Restore and Delete buttons and both confirm buttons are disabled, and one `PATCH /notes/trash/{id}/restore` goes out |
| NoteTrash.Page.FinishRestore | src/pages/Dashboard/NoteTrash.tsx:70-79 | processing cleared, restore dialog closed and cleared, the delete dialog untouched; the toast follows the outcome |
| NoteTrash.Page.BeginDelete | src/pages/Dashboard/NoteTrash.tsx:98-103 | without a target nothing changes; otherwise the shared processing slot holds the note, so its Restore and Delete buttons and both confirm buttons are disabled, and one `DELETE /notes/{id}?permanent=true` goes out |
| NoteTrash.Page.FinishDelete | src/pages/Dashboard/NoteTrash.tsx:104-113 | processing cleared, delete dialog closed and cleared, the restore dialog untouched; the toast follows the outcome |
| NoteTrash.Page.ConfirmRestore | src/pages/Dashboard/NoteTrash.tsx:64-80 | no-op without a target; otherwise one restore request and back to idle whatever the outcome |
| NoteTrash.Page.ConfirmDelete | src/pages/Dashboard/NoteTrash.tsx:98-114 | no-op without a target; otherwise one delete request and back to idle whatever the outcome |
| PublicNotes.NotesList | src/pages/Dashboard/PublicNotes.tsx:67-74 | no request while logged out; otherwise one `GET /notes` whose body is unwrapped `notes`, else `data`, else raw |
| PublicNotes.Select | src/pages/Dashboard/PublicNotes.tsx:192-193 | the filtered list holds only notes with the wanted flag, every such note, and nothing not in the original |
| PublicNotes.Partition | src/pages/Dashboard/PublicNotes.tsx:192-193 | the public and private lists are disjoint, together are the whole list as a multiset, and their counts sum to the total |
| PublicNotes.SelectAppend | src/pages/Dashboard/PublicNotes.tsx:192-193 | filtering distributes over concatenation, so the relative order of the notes is kept |
| PublicNotes.ToggledNoteMoves | src/pages/Dashboard/PublicNotes.tsx:192-193 | after its flag is set, a note is in the list for that flag and not in the other |
| PublicNotes.PrivacyPath | src/pages/Dashboard/PublicNotes.tsx:101-103 | the note's resource path followed by `/public` for the public action and `/private` for the private one |
| PublicNotes.PrivacyNotice | src/pages/Dashboard/PublicNotes.tsx:108-119 | each of the four messages appears exactly for its action and outcome |
| PublicNotes.Page.constructor | src/pages/Dashboard/PublicNotes.tsx:43-46 | dialog closed, no target, nothing processing, action public |
| PublicNotes.Page.HandlePrivacyToggle | src/pages/Dashboard/PublicNotes.tsx:90-94 | the dialog opens on the note with the given action; the processing slot is untouched |
| PublicNotes.Page.CancelPrivacy | src/pages/Dashboard/PublicNotes.tsx:516-519 | the dialog closes and its target is cleared; the action is kept |
| PublicNotes.Page.SetPrivacyDialogOpen | src/pages/Dashboard/PublicNotes.tsx:487 | only the open flag changes |
| PublicNotes.Page.BeginConfirm | src/pages/Dashboard/PublicNotes.tsx:96-105 | without a target nothing changes; otherwise the note is processing, its privacy buttons and the confirm button are disabled, and one `PATCH` to the endpoint chosen by the action goes out |
| PublicNotes.Page.Finish | src/pages/Dashboard/PublicNotes.tsx:106-124 | processing cleared, dialog closed and cleared, action kept; the toast is determined by the action and the outcome |
| PublicNotes.Page.ConfirmPrivacyToggle | src/pages/Dashboard/PublicNotes.tsx:96-125 | no-op without a target; otherwise one request for the action in force and back to idle whatever the outcome |
| ReadNote.Fetch | src/pages/notely/ReadNote.tsx:39-55 | without an id the query is disabled: its function never runs, nothing is requested and no note arrives; otherwise the authenticated `GET /notes/{id}` first, and `public/notes/{id}` only after it failed; the result is the unwrapped body of the first success or the public request's error |
| ReadNote.ErrorMessage | src/pages/notely/ReadNote.tsx:80-85 | 403 and 404 map to their fixed texts; any other error shows its own message, or "Failed to load note" when that is empty; never empty |
| ReadNote.IsOwner | src/pages/notely/ReadNote.tsx:70-76 | true exactly when a note and a user id are both present and the note's `userId` equals the id |
| ReadNote.NoIdShowsNotFound | src/pages/notely/ReadNote.tsx:54-95 | without an id nothing is requested and the page shows "Note not found." |
| ReadNote.DisplayOf | src/pages/notely/ReadNote.tsx:80-95 | a failed query shows the mapped message; no note shows "Note not found."; a note is shown with the owner flag |
| ReadNote.OwnerControlsNeedOwnership | src/pages/notely/ReadNote.tsx:70-76 | a note is shown as owned only to a signed-in user whose id is the note's `userId` |
| ReadNote.PublicFallbackDecides | src/pages/notely/ReadNote.tsx:44-52 | once the authenticated fetch fails, its error never reaches the page; the public fetch alone decides what is shown |
| ReadNote.OwnerState.constructor | src/pages/notely/ReadNote.tsx:36 | not the owner initially |
| ReadNote.OwnerState.Sync | src/pages/notely/ReadNote.tsx:70-76 | after the effect `isOwner` equals the owner check |
| TopNavBar.UpperString | src/pages/Dashboard/TopNavBar.tsx:36-42 | upper-casing keeps the length and maps every character |
| TopNavBar.Initials | src/pages/Dashboard/TopNavBar.tsx:34-45 | both names give their upper-cased first letters; one name gives its first one or two letters upper-cased; none gives "NA"; always one or two characters with no lower-case letter |
| TopNavBar.AvatarText | src/pages/Dashboard/TopNavBar.tsx:52 | "U" whenever nobody is logged in, the initials otherwise |
| TopNavBar.AvatarUIsAmbiguous | src/pages/Dashboard/TopNavBar.tsx:52 | a logged-in user whose only name is "u" also gets "U" |
| TopNavBar.AvatarUMeansSingleLetterU | src/pages/Dashboard/TopNavBar.tsx:34-52 | a logged-in user gets "U" only if one name is empty and the other is the single letter "u" or "U" |
| TopNavBar.HandleLogout | src/pages/Dashboard/TopNavBar.tsx:22-32 | one `POST /auth/logout`; then, on success and on failure alike, the user is cleared and navigation goes to `/` |

## Left out

- The user store's own source file is not part of this model. `UserStore`
  follows what its callers rely on: `setUser` with a whole user replaces
  it; `setUser` with the four profile fields keeps the user id;
  `clearUser` empties it.
- The axios instances are not part of this model, so neither is HTTP I/O.
  Requests are recorded values and responses are inputs.
- A `Notice` is the text the page passes: the title of a success toast,
  the description of a failure toast. The toast helpers' own fixed texts
  are not modelled: the description under a success title, the title
  above a failure description, and the default description used when a
  failure toast gets an empty one. Neither are durations, `dismiss()`
  calls or the "Retry"/"Focus" buttons. `UpdateProfile`'s retry is the
  exception: it re-issues the mutation, so it is modelled.
- UpdateProfile.OnSuccess: the description passed with its "Profile
  updated!" toast ("Your profile has been updated. Please login again.")
  is not modelled; the notice holds the title only.
- React Query caching, refetching, invalidation and automatic retries are
  not modelled. By default a failing query function is re-run up to three
  times, so the request bounds of `ReadNote.Fetch` and `EditNote.Fetch`
  hold for one run of the query function. A successful confirm only
  reports `refetch`.
- ReadNote.Fetch: a disabled query (no id) is modelled as settled with no
  note, so the page shows "Note not found.". Under React Query 4 a
  disabled query without data stays in its loading state instead, and the
  page shows the loader. The same holds for EditNote.Fetch, whose page
  then shows the not-found view or the loader.
- `useEffect` scheduling is not modelled, and `ReadNote.DisplayOf` uses
  the owner check directly instead of the state it sets.
- Each `setTimeout` delay is not modelled: the 300 ms before opening a
  note, and the 2000 ms before `UpdateProfile.AfterDelay`.
- The loading spinners are not modelled: `isLoading` of the queries, the
  auth-check `loading` flag, and `isNavigating`. `UpdatePassword`'s
  `isLoading` is modelled.
- All JSX rendering, layout, icons and CSS are not modelled.
- The side bar, landing page, notes list page, profile pages and the
  Summernote editor are not modelled.
- Date formatting is not modelled.
- TopNavBar.UpperString: upper-cases ASCII letters only. JavaScript's
  Unicode `toUpperCase` can lengthen a string (`"ß"` becomes `"SS"`),
  which would break the one-or-two-character bound of `Initials`.
- TopNavBar.Initials: string positions are Unicode characters, not the
  UTF-16 code units of `firstName[0]` and `slice(0, 2)`. For a name that
  starts outside the Basic Multilingual Plane the source shows a lone
  surrogate where the model shows the whole character.
- TopNavBar.AvatarText: the avatar does not show "U" exactly when nobody is
  logged in. It shows "U" whenever nobody is logged in, and also for a
  logged-in user whose only name is the single letter "u" or "U"
  (`AvatarUIsAmbiguous`, `AvatarUMeansSingleLetterU`).
- NoteStore.State.UpdateNoteForm: a key present in a partial update with
  the value `undefined` is modelled as absent. JavaScript's spread would
  copy the `undefined`. For the same reason an update cannot clear
  `userId`.
- Falsy strings are modelled as the empty string. `null` and `undefined`
  fields of the server's error body are modelled as "". A response body
  that is falsy but not `null` (`""`, `0`, `false`) is `raw == None`, so it
  unwraps to no note or no list. A `null` or absent body makes
  `body.note` throw; it is modelled as a `Failed` outcome, which in
  `ReadNote.Fetch` leads to the public fallback (`PublicFallbackDecides`).
- ConfirmDialog.RequestsBounded: each confirm is assumed to finish (its
  `finally` done) before the next interaction. Interleavings of a pending
  `await` with further clicks are not modelled. The confirm button is
  disabled while anything is processing, which is modelled by
  `ConfirmDisabled`.
