/** `infrastructure/server/handlers/note_handler.go`: reading the caller's user id from the
    request context and the guards in front of the note use cases. */
module NoteHandler {
  import opened Wrappers
  import opened Strconv

  /** The dynamic type of a value stored in the Gin context, as far as the type switch
      distinguishes it. */
  datatype ContextValue = IntValue(i: int) | StringValue(s: string) | OtherValue

  /** The context key the handler reads. */
  const UserIdKey := "user_id"
  /** The key `AuthMiddleware` writes the validated user id under. */
  const MiddlewareKey := "userID"

  const StatusOK := 200
  const StatusNoContent := 204
  const StatusBadRequest := 400
  const StatusUnauthorized := 401
  const StatusInternalServerError := 500

  const UnauthorizedMessage := "unauthorized"
  const BookIdRequiredMessage := "book_id is required"
  const NoteIdRequiredMessage := "note_id is required"

  /** `getUserIDFromContext`: the context value under "user_id" by its type, or, when the
      key is absent, the `X-User-ID` header; an empty header and an unknown type give 0.
      The only errors are those of parsing a text as an integer. */
  function UserIdFromContext(ctx: map<string, ContextValue>, header: string): (r: Result<int, NumError>)
    ensures r.Failure? <==> ((UserIdKey !in ctx && header != "" && Atoi(header).Failure?)
                             || (UserIdKey in ctx && ctx[UserIdKey].StringValue? && Atoi(ctx[UserIdKey].s).Failure?))
    ensures UserIdKey !in ctx && header != "" ==> r == Atoi(header)
    ensures UserIdKey !in ctx && header == "" ==> r == Success(0)
    ensures UserIdKey in ctx && ctx[UserIdKey].StringValue? ==> r == Atoi(ctx[UserIdKey].s)
    ensures UserIdKey in ctx && ctx[UserIdKey].IntValue? ==> r == Success(ctx[UserIdKey].i)
    ensures UserIdKey in ctx && ctx[UserIdKey].OtherValue? ==> r == Success(0)
  {
    if UserIdKey !in ctx then
      if header != "" then Atoi(header) else Success(0)
    else
      match ctx[UserIdKey]
      case IntValue(v) => Success(v)
      case StringValue(v) => Atoi(v)
      case OtherValue => Success(0)
  }

  /** A decimal id in the header, or stored as text, reads back as that id. */
  lemma TextIdRoundTrip(ctx: map<string, ContextValue>, n: int)
    requires MinInt64 <= n <= MaxInt64
    ensures UserIdKey !in ctx ==> UserIdFromContext(ctx, Itoa(n)) == Success(n)
    ensures UserIdFromContext(ctx[UserIdKey := StringValue(Itoa(n))], "") == Success(n)
  {
    AtoiItoa(n);
  }

  /** The id `AuthMiddleware` stores sits under another key, so with no header the
      handlers read user 0, whatever the token said. */
  lemma MiddlewareIdNotSeen(userID: int)
    ensures UserIdFromContext(map[MiddlewareKey := IntValue(userID)], "") == Success(0)
  {
    assert UserIdKey !in map[MiddlewareKey := IntValue(userID)];
  }

  /** A handler's reply: an error, a data payload, or no body. */
  datatype Body<T> = ErrorBody(error: string) | Data(data: T) | NoBody
  datatype Reply<T> = Reply(status: int, body: Body<T>)

  /** `GetNotes`: 401 when the user id cannot be read, 400 on an empty `book_id`, then the
      use case with the book id and the user id. */
  function GetNotes<N>(ctx: map<string, ContextValue>, header: string, bookID: string,
                       getNotes: (string, int) -> Result<N, string>): (r: Reply<N>)
    ensures UserIdFromContext(ctx, header).Failure? ==> r == Reply(StatusUnauthorized, ErrorBody(UnauthorizedMessage))
    ensures UserIdFromContext(ctx, header).Success? && bookID == ""
        ==> r == Reply(StatusBadRequest, ErrorBody(BookIdRequiredMessage))
    ensures r.status == StatusOK <==> (UserIdFromContext(ctx, header).Success? && bookID != ""
                                       && getNotes(bookID, UserIdFromContext(ctx, header).value).Success?)
    ensures r.status == StatusOK ==> r.body == Data(getNotes(bookID, UserIdFromContext(ctx, header).value).value)
  {
    var userID := UserIdFromContext(ctx, header);
    if userID.Failure? then Reply(StatusUnauthorized, ErrorBody(UnauthorizedMessage))
    else if bookID == "" then Reply(StatusBadRequest, ErrorBody(BookIdRequiredMessage))
    else
      var notes := getNotes(bookID, userID.value);
      if notes.Failure? then Reply(StatusInternalServerError, ErrorBody(notes.error))
      else Reply(StatusOK, Data(notes.value))
  }

  /** `DeleteNote`: the same guards with `note_id`, then 204 or the use case's error. */
  function DeleteNote(ctx: map<string, ContextValue>, header: string, noteID: string,
                      deleteNote: (string, int) -> Option<string>): (r: Reply<()>)
    ensures UserIdFromContext(ctx, header).Failure? ==> r == Reply(StatusUnauthorized, ErrorBody(UnauthorizedMessage))
    ensures UserIdFromContext(ctx, header).Success? && noteID == ""
        ==> r == Reply(StatusBadRequest, ErrorBody(NoteIdRequiredMessage))
    ensures r.status == StatusNoContent <==> (UserIdFromContext(ctx, header).Success? && noteID != ""
                                              && deleteNote(noteID, UserIdFromContext(ctx, header).value).None?)
  {
    var userID := UserIdFromContext(ctx, header);
    if userID.Failure? then Reply(StatusUnauthorized, ErrorBody(UnauthorizedMessage))
    else if noteID == "" then Reply(StatusBadRequest, ErrorBody(NoteIdRequiredMessage))
    else
      var err := deleteNote(noteID, userID.value);
      if err.Some? then Reply(StatusInternalServerError, ErrorBody(err.value))
      else Reply(StatusNoContent, NoBody)
  }

  /** An empty path parameter is answered before the use case: the reply does not depend on it. */
  lemma EmptyParamNeverReachesUseCase<N>(ctx: map<string, ContextValue>, header: string,
                                         get1: (string, int) -> Result<N, string>, get2: (string, int) -> Result<N, string>,
                                         del1: (string, int) -> Option<string>, del2: (string, int) -> Option<string>)
    ensures GetNotes(ctx, header, "", get1) == GetNotes(ctx, header, "", get2)
    ensures DeleteNote(ctx, header, "", del1) == DeleteNote(ctx, header, "", del2)
    ensures GetNotes(ctx, header, "", get1).status in {StatusUnauthorized, StatusBadRequest}
  {
  }

  /** With neither the key nor the header the 401 branch is not taken: the notes of user 0
      are fetched. */
  lemma AnonymousRequestReadsUserZero<N>(bookID: string, getNotes: (string, int) -> Result<N, string>)
    requires bookID != "" && getNotes(bookID, 0).Success?
    ensures GetNotes(map[], "", bookID, getNotes) == Reply(StatusOK, Data(getNotes(bookID, 0).value))
  {
  }
}
