/** The note entity as the server returns it. */
module Notes {
  import opened Wrappers

  datatype NoteAuthor = NoteAuthor(firstName: string, lastName: string, emailAddress: string, username: string)

  /** Dates are kept as the server's strings; `user` is present when the server includes it. */
  datatype Note = Note(
    id: string,
    userId: string,
    title: string,
    synopsis: string,
    content: string,
    isPublic: bool,
    isDeleted: bool,
    dateCreated: string,
    lastUpdated: string,
    user: Option<NoteAuthor>)
}
