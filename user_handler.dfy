/** `infrastructure/server/handlers/user_handler.go`, `UpdateUser`: the partial-update merge
    of a user record and the order in which the handler rejects a request. Binding the JSON
    body, the store, the password hash, `time.Parse` and the clock come in as values and
    functions. */
module UserHandler {
  import opened Wrappers
  import opened Strconv
  import opened GoTime

  /** The user record as the handler reads and writes it. */
  datatype User = User(
    id: int,
    username: string,
    email: string,
    passwordHash: string,
    profileImage: Option<string>,
    createdAt: Time,
    updatedAt: Time,
    booksReadCount: int,
    readingStreak: int,
    lastReadDate: Option<Time>,
    points: int)

  /** The bound request body: every field optional (`*string`, `*int`). */
  datatype UpdateInput = UpdateInput(
    username: Option<string>,
    email: Option<string>,
    password: Option<string>,
    profileImage: Option<string>,
    booksReadCount: Option<int>,
    readingStreak: Option<int>,
    points: Option<int>,
    lastReadDate: Option<string>)

  /** What the handler writes back: `{"error": ...}` or `{"data": {"user": ...}}`. */
  datatype Body = ErrorBody(error: string) | UserData(user: User)
  datatype Reply = Reply(status: int, body: Body)

  const StatusOK := 200
  const StatusBadRequest := 400
  const StatusNotFound := 404
  const StatusInternalServerError := 500

  const InvalidIdMessage := "invalid user id"
  const InvalidPayloadPrefix := "invalid request payload: "
  const NotFoundMessage := "User not found"
  const HashFailedMessage := "failed to hash password"
  const BadDateMessage := "invalid lastReadDate format, must be RFC3339"

  /** The optional value if given, the previous one otherwise. */
  function Overwrite<T>(given: Option<T>, previous: T): (r: T)
    ensures given.Some? ==> r == given.value
    ensures given.None? ==> r == previous
  {
    if given.Some? then given.value else previous
  }

  /** A nullable text field: absent keeps it, "" clears it, anything else is stored. */
  function OverwriteNullable(given: Option<string>, previous: Option<string>): (r: Option<string>)
    ensures given.None? ==> r == previous
    ensures given == Some("") ==> r.None?
    ensures given.Some? && given.value != "" ==> r == given
  {
    match given
    case None => previous
    case Some(v) => if v == "" then None else Some(v)
  }

  /** The password hash to store: the previous one, or the hash of the new password. */
  function NewPasswordHash(input: UpdateInput, previous: string, hash: string -> Result<string, string>): (r: Result<string, Reply>)
    ensures input.password.None? ==> r == Success(previous)
    ensures input.password.Some? && hash(input.password.value).Success? ==> r == Success(hash(input.password.value).value)
    ensures input.password.Some? && hash(input.password.value).Failure?
        ==> r == Failure(Reply(StatusInternalServerError, ErrorBody(HashFailedMessage)))
  {
    match input.password
    case None => Success(previous)
    case Some(p) =>
      var h := hash(p);
      if h.Failure? then Failure(Reply(StatusInternalServerError, ErrorBody(HashFailedMessage)))
      else Success(h.value)
  }

  /** The last-read date to store: absent keeps it, "" clears it, otherwise it must parse as
      RFC 3339. */
  function NewLastReadDate(input: UpdateInput, previous: Option<Time>, parseRFC3339: string -> Result<Time, string>): (r: Result<Option<Time>, Reply>)
    ensures input.lastReadDate.None? ==> r == Success(previous)
    ensures input.lastReadDate == Some("") ==> r == Success(None)
    ensures input.lastReadDate.Some? && input.lastReadDate.value != ""
        ==> (r.Success? <==> parseRFC3339(input.lastReadDate.value).Success?)
    ensures input.lastReadDate.Some? && input.lastReadDate.value != "" && r.Success?
        ==> r.value == Some(parseRFC3339(input.lastReadDate.value).value)
    ensures r.Failure? ==> r.error == Reply(StatusBadRequest, ErrorBody(BadDateMessage))
  {
    match input.lastReadDate
    case None => Success(previous)
    case Some(d) =>
      if d == "" then Success(None)
      else
        var t := parseRFC3339(d);
        if t.Failure? then Failure(Reply(StatusBadRequest, ErrorBody(BadDateMessage)))
        else Success(Some(t.value))
  }

  /** The record sent to the store, or the reply that stops the update: a copy of the
      previous user under the parsed id, each given field written over it, then the
      timestamps. `now` and `nowAgain` are the two clock readings, for `UpdatedAt` and for
      a zero `CreatedAt`. A hashing failure is reported before a bad date. */
  function Merge(prev: User, parsedID: int, input: UpdateInput, hash: string -> Result<string, string>,
                 parseRFC3339: string -> Result<Time, string>, now: Time, nowAgain: Time): (r: Result<User, Reply>)
    ensures r.Failure? <==> (NewPasswordHash(input, prev.passwordHash, hash).Failure?
                             || NewLastReadDate(input, prev.lastReadDate, parseRFC3339).Failure?)
    ensures NewPasswordHash(input, prev.passwordHash, hash).Failure?
        ==> r == Failure(Reply(StatusInternalServerError, ErrorBody(HashFailedMessage)))
    ensures r.Success? ==> r.value.id == parsedID
    ensures r.Success? ==> r.value.username == Overwrite(input.username, prev.username)
    ensures r.Success? ==> r.value.email == Overwrite(input.email, prev.email)
    ensures r.Success? ==> r.value.passwordHash == NewPasswordHash(input, prev.passwordHash, hash).value
    ensures r.Success? ==> r.value.profileImage == OverwriteNullable(input.profileImage, prev.profileImage)
    ensures r.Success? ==> r.value.booksReadCount == Overwrite(input.booksReadCount, prev.booksReadCount)
    ensures r.Success? ==> r.value.readingStreak == Overwrite(input.readingStreak, prev.readingStreak)
    ensures r.Success? ==> r.value.points == Overwrite(input.points, prev.points)
    ensures r.Success? ==> r.value.lastReadDate == NewLastReadDate(input, prev.lastReadDate, parseRFC3339).value
    ensures r.Success? ==> r.value.updatedAt == now
    ensures r.Success? ==> r.value.createdAt == (if prev.createdAt.IsZero() then nowAgain else prev.createdAt)
  {
    var pw := NewPasswordHash(input, prev.passwordHash, hash);
    if pw.Failure? then Failure(pw.error)
    else
      var date := NewLastReadDate(input, prev.lastReadDate, parseRFC3339);
      if date.Failure? then Failure(date.error)
      else
        Success(prev.(id := parsedID, username := Overwrite(input.username, prev.username),
                      email := Overwrite(input.email, prev.email), passwordHash := pw.value,
                      profileImage := OverwriteNullable(input.profileImage, prev.profileImage),
                      booksReadCount := Overwrite(input.booksReadCount, prev.booksReadCount),
                      readingStreak := Overwrite(input.readingStreak, prev.readingStreak),
                      points := Overwrite(input.points, prev.points), lastReadDate := date.value,
                      updatedAt := now, createdAt := if prev.createdAt.IsZero() then nowAgain else prev.createdAt))
  }

  /** An empty update only moves the timestamps and sets the id. */
  lemma EmptyUpdateTouchesOnlyTimestamps(prev: User, parsedID: int, hash: string -> Result<string, string>,
                                         parseRFC3339: string -> Result<Time, string>, now: Time, nowAgain: Time)
    ensures Merge(prev, parsedID, UpdateInput(None, None, None, None, None, None, None, None), hash, parseRFC3339, now, nowAgain)
         == Success(prev.(id := parsedID, updatedAt := now,
                          createdAt := if prev.createdAt.IsZero() then nowAgain else prev.createdAt))
  {
  }

  /** The whole reply and the record the store received (`None` when it was not called),
      in the handler's order: bad id, bad payload, lookup error, missing user, merge error,
      store error, success. */
  function UpdateUserOutcome(id: string, payload: Result<UpdateInput, string>, lookup: string -> Result<User, string>,
                             hash: string -> Result<string, string>, parseRFC3339: string -> Result<Time, string>,
                             now: Time, nowAgain: Time, update: User -> Result<User, string>): (Reply, Option<User>)
  {
    var parsed := Atoi(id);
    if parsed.Failure? then (Reply(StatusBadRequest, ErrorBody(InvalidIdMessage)), None)
    else if payload.Failure? then (Reply(StatusBadRequest, ErrorBody(InvalidPayloadPrefix + payload.error)), None)
    else
      var prev := lookup(id);
      if prev.Failure? then (Reply(StatusInternalServerError, ErrorBody(prev.error)), None)
      else if prev.value.id == 0 then (Reply(StatusNotFound, ErrorBody(NotFoundMessage)), None)
      else
        var merged := Merge(prev.value, parsed.value, payload.value, hash, parseRFC3339, now, nowAgain);
        if merged.Failure? then (merged.error, None)
        else
          var stored := update(merged.value);
          if stored.Failure? then (Reply(StatusInternalServerError, ErrorBody(stored.error)), Some(merged.value))
          else (Reply(StatusOK, UserData(stored.value)), Some(merged.value))
  }

  /** A non-integer path id is answered with 400 whatever the store holds, and nothing is stored. */
  lemma BadIdRejectedBeforeLookup(id: string, payload: Result<UpdateInput, string>,
                                  lookup1: string -> Result<User, string>, lookup2: string -> Result<User, string>,
                                  hash: string -> Result<string, string>, parseRFC3339: string -> Result<Time, string>,
                                  now: Time, nowAgain: Time,
                                  update1: User -> Result<User, string>, update2: User -> Result<User, string>)
    requires Atoi(id).Failure?
    ensures UpdateUserOutcome(id, payload, lookup1, hash, parseRFC3339, now, nowAgain, update1)
         == UpdateUserOutcome(id, payload, lookup2, hash, parseRFC3339, now, nowAgain, update2)
    ensures UpdateUserOutcome(id, payload, lookup1, hash, parseRFC3339, now, nowAgain, update1)
         == (Reply(StatusBadRequest, ErrorBody(InvalidIdMessage)), None)
  {
  }

  /** A looked-up user with id 0 is answered with 404 and the store is not called. */
  lemma MissingUserNotUpdated(id: string, input: UpdateInput, lookup: string -> Result<User, string>,
                              hash: string -> Result<string, string>, parseRFC3339: string -> Result<Time, string>,
                              now: Time, nowAgain: Time, update: User -> Result<User, string>)
    requires Atoi(id).Success? && lookup(id).Success? && lookup(id).value.id == 0
    ensures UpdateUserOutcome(id, Success(input), lookup, hash, parseRFC3339, now, nowAgain, update)
         == (Reply(StatusNotFound, ErrorBody(NotFoundMessage)), None)
  {
  }

  /** Whenever the store is called it receives the merge of the looked-up user under the
      parsed id, stamped with `now`; a 200 reply carries what the store returned. */
  lemma StoredRecordIsMerge(id: string, payload: Result<UpdateInput, string>, lookup: string -> Result<User, string>,
                            hash: string -> Result<string, string>, parseRFC3339: string -> Result<Time, string>,
                            now: Time, nowAgain: Time, update: User -> Result<User, string>)
    ensures var (reply, stored) := UpdateUserOutcome(id, payload, lookup, hash, parseRFC3339, now, nowAgain, update);
      stored.Some? ==>
        Atoi(id).Success? && payload.Success? && lookup(id).Success? && lookup(id).value.id != 0
        && Merge(lookup(id).value, Atoi(id).value, payload.value, hash, parseRFC3339, now, nowAgain) == Success(stored.value)
        && stored.value.id == Atoi(id).value && stored.value.updatedAt == now
        && (reply.status == StatusOK <==> update(stored.value).Success?)
        && (reply.status == StatusOK ==> reply.body == UserData(update(stored.value).value))
  {
  }

  /** The account fields of the merge: user name, e-mail, and the password, stored only as
      its hash; a hashing failure stops the update. */
  method ApplyAccountFields(updated: User, input: UpdateInput, hash: string -> Result<string, string>)
    returns (r: Result<User, Reply>)
    ensures var pw := NewPasswordHash(input, updated.passwordHash, hash);
      r == if pw.Failure? then Failure(pw.error)
           else Success(updated.(username := Overwrite(input.username, updated.username),
                                 email := Overwrite(input.email, updated.email), passwordHash := pw.value))
  {
    var u := updated;
    if input.username.Some? {
      u := u.(username := input.username.value);
    }
    if input.email.Some? {
      u := u.(email := input.email.value);
    }
    if input.password.Some? {
      var hashed := hash(input.password.value);
      if hashed.Failure? {
        return Failure(Reply(StatusInternalServerError, ErrorBody(HashFailedMessage)));
      }
      u := u.(passwordHash := hashed.value);
    }
    return Success(u);
  }

  /** The profile fields of the merge: the nullable image and the three counters. */
  method ApplyProfileFields(updated: User, input: UpdateInput) returns (u: User)
    ensures u == updated.(profileImage := OverwriteNullable(input.profileImage, updated.profileImage),
                          booksReadCount := Overwrite(input.booksReadCount, updated.booksReadCount),
                          readingStreak := Overwrite(input.readingStreak, updated.readingStreak),
                          points := Overwrite(input.points, updated.points))
  {
    u := updated;
    if input.profileImage.Some? {
      if input.profileImage.value == "" {
        u := u.(profileImage := None);
      } else {
        u := u.(profileImage := input.profileImage);
      }
    }
    if input.booksReadCount.Some? {
      u := u.(booksReadCount := input.booksReadCount.value);
    }
    if input.readingStreak.Some? {
      u := u.(readingStreak := input.readingStreak.value);
    }
    if input.points.Some? {
      u := u.(points := input.points.value);
    }
  }

  /** The dates of the merge: the last-read date, which must parse when given and non-empty,
      then the two timestamps. */
  method ApplyDates(updated: User, input: UpdateInput, parseRFC3339: string -> Result<Time, string>,
                    now: Time, nowAgain: Time) returns (r: Result<User, Reply>)
    ensures var date := NewLastReadDate(input, updated.lastReadDate, parseRFC3339);
      r == if date.Failure? then Failure(date.error)
           else Success(updated.(lastReadDate := date.value, updatedAt := now,
                                 createdAt := if updated.createdAt.IsZero() then nowAgain else updated.createdAt))
  {
    var u := updated;
    if input.lastReadDate.Some? {
      if input.lastReadDate.value == "" {
        u := u.(lastReadDate := None);
      } else {
        var t := parseRFC3339(input.lastReadDate.value);
        if t.Failure? {
          return Failure(Reply(StatusBadRequest, ErrorBody(BadDateMessage)));
        }
        u := u.(lastReadDate := Some(t.value));
      }
    }
    u := u.(updatedAt := now);
    if u.createdAt.IsZero() {
      u := u.(createdAt := nowAgain);
    }
    return Success(u);
  }

  /** The merge step of `UpdateUser`: the copy of the previous record under the parsed id,
      overwritten field by field in the handler's order. */
  method ApplyChanges(prev: User, parsedID: int, input: UpdateInput, hash: string -> Result<string, string>,
                      parseRFC3339: string -> Result<Time, string>, now: Time, nowAgain: Time)
    returns (r: Result<User, Reply>)
    ensures r == Merge(prev, parsedID, input, hash, parseRFC3339, now, nowAgain)
  {
    var updated := prev.(id := parsedID);
    var account := ApplyAccountFields(updated, input, hash);
    if account.Failure? {
      return account;
    }
    updated := ApplyProfileFields(account.value, input);
    r := ApplyDates(updated, input, parseRFC3339, now, nowAgain);
  }

  /** `UserHandler.UpdateUser`: early returns on each error, then the merge and the store. Returns the reply and the record handed to the store, if any. */
  method UpdateUser(id: string, payload: Result<UpdateInput, string>, lookup: string -> Result<User, string>,
                    hash: string -> Result<string, string>, parseRFC3339: string -> Result<Time, string>,
                    now: Time, nowAgain: Time, update: User -> Result<User, string>)
    returns (reply: Reply, stored: Option<User>)
    ensures (reply, stored) == UpdateUserOutcome(id, payload, lookup, hash, parseRFC3339, now, nowAgain, update)
  {
    stored := None;
    var parsedID := Atoi(id);
    if parsedID.Failure? {
      reply := Reply(StatusBadRequest, ErrorBody(InvalidIdMessage));
      return;
    }
    if payload.Failure? {
      reply := Reply(StatusBadRequest, ErrorBody(InvalidPayloadPrefix + payload.error));
      return;
    }
    var input := payload.value;
    var found := lookup(id);
    if found.Failure? {
      reply := Reply(StatusInternalServerError, ErrorBody(found.error));
      return;
    }
    var prev := found.value;
    if prev.id == 0 {
      reply := Reply(StatusNotFound, ErrorBody(NotFoundMessage));
      return;
    }
    var merged := ApplyChanges(prev, parsedID.value, input, hash, parseRFC3339, now, nowAgain);
    if merged.Failure? {
      reply := merged.error;
      return;
    }
    var updated := merged.value;
    stored := Some(updated);
    var user := update(updated);
    if user.Failure? {
      reply := Reply(StatusInternalServerError, ErrorBody(user.error));
      return;
    }
    reply := Reply(StatusOK, UserData(user.value));
  }
}
