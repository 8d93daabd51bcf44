# btluBook-Store backend: the rule-based core, in Dafny

The bookstore backend is mostly HTTP-to-SQL glue. This project models the places where an
output is fixed by rules rather than by a database or a remote service, and proves those
rules. Calls into foreign code become function parameters: the Gemini SDK, JSON decoding,
JWT signing and parsing, password hashing, `time.Parse`, UUIDs and the clock. The result is
deterministic over those parameters.

- **AI response post-processing**, in two revisions of the Gemini adapter (`GeminiAdapter`
  for directory externalapis/, `LegacyGeminiAdapter` for directory external_apis/) and in
  the note summariser (`AINote`):
  - the text of the first candidate;
  - stripping markdown code fences before decoding;
  - mapping "429" rate-limit errors;
  - the pointer list built from the decoded quizzes.
- **The shared `*genai.GenerativeModel`**: a class (`GenAi.GenerativeModel`) whose settings
  each call partly overwrites. Only the multiple-choice call sets a temperature, so a later
  true/false call sends 0.2 (`GeminiAdapter.TemperatureCarriesOver`).
- **Prompt builders** (`MultipleQuizUseCase`, `ChatResponseUseCase`, `AINote`): fixed
  templates with the user's text spliced in verbatim.
- **Token handling** (`Security`): trimming plus removal of a case-insensitive "Bearer "
  prefix, the 24-hour expiry, and the outcomes of validation.
- **Books**:
  - the create-book id default and path normalisation (`CreateBookUseCase`, over a
    mutable `BookRef` standing for `*book.Book`);
  - the Google Books mapping loop (`TrendingBooksUseCase`).
- **Handlers**:
  - the partial user update (`UserHandler`), written step by step against a specification
    function;
  - user-id extraction and the path guards of the note handler (`NoteHandler`).
- **Debug helpers** (`DebugSetup`): `SafeSubstring` and the "eyJ" check.
- **Support modules**:
  - `GoStrings` and `Strconv` model the standard-library functions the code relies on, over
    ASCII;
  - `Wrappers` holds Option and Result;
  - `GoTime` holds `time.Time`;
  - `ChatDomain` and `BookDomain` hold the records.

## Model

| member | source | states |
|---|---|---|
| GenAi.GenerativeModel.SetMaxOutputTokens | backend/bookstore/internal/infrastructure/externalapis/gemini.go:83 | only the token limit changes; the other settings keep their old values |
| GenAi.GenerativeModel.SetTemperature | backend/bookstore/internal/infrastructure/externalapis/gemini.go:84 | only the temperature changes |
| GenAi.FirstContent | backend/bookstore/internal/infrastructure/externalapis/gemini.go:48-50 | there is no content exactly when the response is nil, has no candidates, its first candidate is nil, or that candidate's content is nil |
| GenAi.TextOfAppend | backend/bookstore/internal/infrastructure/externalapis/gemini.go:52-56 | the text of a part list is built in order: text of a concatenation = concatenation of texts |
| GenAi.TextOfInsert | backend/bookstore/internal/infrastructure/externalapis/gemini.go:53-55 | a text part contributes exactly its text, any other part nothing |
| GenAi.FirstCandidateOnly | backend/bookstore/internal/infrastructure/externalapis/gemini.go:52 | later candidates never change the extracted text |
| GeminiAdapter.ExtractText | backend/bookstore/internal/infrastructure/externalapis/gemini.go:47-58 | the builder loop yields the in-order text of the first candidate's parts, and "" when there is no first content |
| GeminiAdapter.StripFences | backend/bookstore/internal/infrastructure/externalapis/gemini.go:67-71 | the text handed to the decoder has no surrounding white space |
| GeminiAdapter.StripJsonFence | backend/bookstore/internal/infrastructure/externalapis/gemini.go:67-71 | a trimmed body between a "```json" line and a "```" line comes out unchanged |
| GeminiAdapter.StripBareFence | backend/bookstore/internal/infrastructure/externalapis/gemini.go:67-71 | a trimmed body between a bare "```" line and a "```" line comes out unchanged |
| GeminiAdapter.StripUnfenced | backend/bookstore/internal/infrastructure/externalapis/gemini.go:67-71 | a trimmed body without fences is left alone |
| GeminiAdapter.ParseQuizzes | backend/bookstore/internal/infrastructure/externalapis/gemini.go:73-78 | it fails exactly when decoding fails, with "failed to parse JSON from model: " before the decoder's error; otherwise it returns the decoded list as it is, even when empty |
| GeminiAdapter.ParseQuizzesIgnoresFences | backend/bookstore/internal/infrastructure/externalapis/gemini.go:67-78 | fenced and unfenced model output decode to the same result |
| GeminiAdapter.PointTo | backend/bookstore/internal/infrastructure/externalapis/gemini.go:103-107 | the result has one entry per decoded quiz, in order |
| GeminiAdapter.MultipleChoiceError | backend/bookstore/internal/infrastructure/externalapis/gemini.go:88-93 | an error whose text contains "429" becomes the free-tier message; any other error is kept |
| GeminiAdapter.QuizOutcomeOnError | backend/bookstore/internal/infrastructure/externalapis/gemini.go:87-94 | only the multiple-choice call rewrites "429" errors; the others return the upstream error unchanged |
| GeminiAdapter.QuizOutcomeWithoutContent | backend/bookstore/internal/infrastructure/externalapis/gemini.go:96-98 | a response without content is decoded as the empty string; it is not an error of its own |
| GeminiAdapter.ChatResponseImpl.GetMultipleChoiceQuestion | backend/bookstore/internal/infrastructure/externalapis/gemini.go:81-108 | the model is left at 4000 tokens, temperature 0.2 and JSON, and the request is sent with exactly those settings; the result is the mapped-error quiz outcome |
| GeminiAdapter.ChatResponseImpl.GetTrueFalseQuestion | backend/bookstore/internal/infrastructure/externalapis/gemini.go:111-121 | 2000 tokens and JSON; the temperature is whatever the previous call left; errors are unmapped |
| GeminiAdapter.ChatResponseImpl.GetShortAnswerQuestion | backend/bookstore/internal/infrastructure/externalapis/gemini.go:123-133 | 2000 tokens and JSON; the temperature is inherited; errors are unmapped |
| GeminiAdapter.ChatResponseImpl.GetChatResponses | backend/bookstore/internal/infrastructure/externalapis/gemini.go:135-141 | 1000 tokens and plain text; it fails only on an upstream error, and otherwise returns id = chat id = chatID with the extracted text, possibly "" |
| GeminiAdapter.TemperatureCarriesOver | backend/bookstore/internal/infrastructure/externalapis/gemini.go:111-113 | a true/false call after a multiple-choice call sends temperature 0.2 |
| LegacyGeminiAdapter.ChatOutcomeAgreesWithExtractText | backend/bookstore/internal/infrastructure/external_apis/gemini.go:41-65 | an upstream error is returned unchanged; the call panics exactly on a nil response or a nil first candidate; no candidates or a nil content return normally with ""; a normal return carries the chat id twice and the in-order text of the first candidate |
| LegacyGeminiAdapter.ChatResponseImpl.GetChatResponses | backend/bookstore/internal/infrastructure/external_apis/gemini.go:41-65 | the accumulation loop yields the outcome above, read with the model's current settings |
| LegacyGeminiAdapter.ChatResponseImpl.GetMultipleChoiceQuestion | backend/bookstore/internal/infrastructure/external_apis/gemini.go:67-69 | returns exactly what GetChatResponses returns for the same arguments |
| LegacyGeminiAdapter.ChatResponseImpl.GetTrueFalseQuestion | backend/bookstore/internal/infrastructure/external_apis/gemini.go:71-73 | the same delegation |
| LegacyGeminiAdapter.ChatResponseImpl.GetShortAnswerQuestion | backend/bookstore/internal/infrastructure/external_apis/gemini.go:74-76 | the same delegation |
| AINote.SummaryPromptEmbedsText | backend/bookstore/internal/usecase/note/generate_ai_note.go:31-40 | the selected text sits verbatim, unescaped and between double quotes, right after the fixed opening; different texts give different prompts |
| AINote.SummaryOutcomeCases | backend/bookstore/internal/usecase/note/generate_ai_note.go:42-60 | "429" errors become the AI rate-limit message and other errors pass through; a missing first content is the "no response from AI model" error; otherwise the result is the in-order text |
| AINote.GeminiSummarizer.Summarize | backend/bookstore/internal/usecase/note/generate_ai_note.go:26-61 | the model is left at 1024 tokens, temperature 0.3 and plain text, and the result is the outcome above for the summary prompt |
| AINote.AINoteFor | backend/bookstore/internal/usecase/note/generate_ai_note.go:81-86 | the note carries the user id, the book id and the summary, and is marked AI-generated |
| AINote.Execute | backend/bookstore/internal/usecase/note/generate_ai_note.go:73-89 | the summary's error, or the repository's answer for AINoteFor of the summary |
| AINote.ExecuteContract | backend/bookstore/internal/usecase/note/generate_ai_note.go:73-89 | a summariser error is returned and the repository is never consulted; on success the repository's answer for that note is returned unchanged |
| MultipleQuizUseCase.MultipleChoicePromptStates | backend/bookstore/internal/usecase/chat/get_multiple_quiz_usecase.go:21-47 | the prompt asks for 10 questions about the quoted book name; the name also fills the book_title slot and "medium" the difficulty slot; the rules demand JSON only, 4 options and 1 correct answer |
| MultipleQuizUseCase.MultipleChoicePromptInjective | backend/bookstore/internal/usecase/chat/get_multiple_quiz_usecase.go:24-47 | different book names give different prompts |
| MultipleQuizUseCase.Execute | backend/bookstore/internal/usecase/chat/get_multiple_quiz_usecase.go:49 | the id and the built prompt go to the repository, and its answer comes back unchanged |
| ChatResponseUseCase.ChatPromptStates | backend/bookstore/internal/usecase/chat/get_chat_response_usecase.go:20-38 | the book name follows "- Title: " and the question follows it quoted under "User question:"; the prompt states the no-spoilers rule and the 120-word limit |
| ChatResponseUseCase.ChatPromptIsNotTheQuestion | backend/bookstore/internal/usecase/chat/get_chat_response_usecase.go:20-40 | the prompt sent is strictly longer than the question and the book name together, so it is never the raw question |
| ChatResponseUseCase.ChatPromptInjective | backend/bookstore/internal/usecase/chat/get_chat_response_usecase.go:20-38 | for a fixed book the prompt determines the question, and for a fixed question it determines the book name |
| ChatResponseUseCase.Execute | backend/bookstore/internal/usecase/chat/get_chat_response_usecase.go:40 | the chat id and the templated prompt go to the repository, whose answer is returned without post-processing |
| Security.NormalizeToken | backend/bookstore/internal/infrastructure/security/jwt.go:35-38 | the parsed token never has surrounding white space, and is never longer than the input |
| Security.NormalizeBearer | backend/bookstore/internal/infrastructure/security/jwt.go:35-38 | white space, "Bearer " in any letter case, more white space, a token and trailing white space: exactly the token is parsed |
| Security.NormalizeUnprefixed | backend/bookstore/internal/infrastructure/security/jwt.go:36 | a value without the prefix is only trimmed |
| Security.OnlyOnePrefixRemoved | backend/bookstore/internal/infrastructure/security/jwt.go:36-38 | "Bearer Bearer x" is parsed as "Bearer x" |
| Security.BarePrefixKept | backend/bookstore/internal/infrastructure/security/jwt.go:36 | "Bearer " alone is 7 characters, so the prefix is not removed and "Bearer" is parsed |
| Security.IssueClaims | backend/bookstore/internal/infrastructure/security/jwt.go:21-27 | the claims carry the user id and expire 24 hours (86400 s) after the issue time |
| Security.GenerateJWT | backend/bookstore/internal/infrastructure/security/jwt.go:20-30 | the signer's answer for the claims issued at now + 86400. The contract is the body with IssueClaims unfolded; the substance is in IssueClaims and IssueThenValidate |
| Security.ValidationOutcome | backend/bookstore/internal/infrastructure/security/jwt.go:50-64 | a parse error is returned with no claims; a token that is not valid gives ErrSignatureInvalid; only a valid token yields its claims |
| Security.ValidateJWT | backend/bookstore/internal/infrastructure/security/jwt.go:31-65 | the outcome is that of the parser on the normalised token |
| Security.IssueThenValidate | backend/bookstore/internal/infrastructure/security/jwt.go:20-64 | if the parser recognises what the signer produced, a "Bearer "-prefixed issued token validates to the issued claims |
| CreateBookUseCase.NormalizeLocalPath | backend/bookstore/internal/usecase/book/create_book.go:29-37 | "" and valid URLs are kept; any other link gets exactly one "/" in front |
| CreateBookUseCase.IsValidURLExamples | backend/bookstore/internal/usecase/book/create_book.go:47-49 | "http" alone is not a URL; "https://..." and "httpx" are; an "/uploads/..." path is not |
| CreateBookUseCase.NormalizedIsServable | backend/bookstore/internal/usecase/book/create_book.go:29-32 | after normalisation a link is empty, a URL or starts with "/" |
| CreateBookUseCase.SlashPrefixedAgain | backend/bookstore/internal/usecase/book/create_book.go:29-32 | a path already starting with "/" still gets another one, so normalising twice gives "//" |
| CreateBookUseCase.PrepareForCreate | backend/bookstore/internal/usecase/book/create_book.go:22-37 | an empty id is replaced with the generated one and a non-empty id is kept; cover and book links are normalised independently; no other field changes |
| CreateBookUseCase.PrepareLeavesCompleteBook | backend/bookstore/internal/usecase/book/create_book.go:22-37 | a book with an id and with URL-or-empty links is stored exactly as given |
| CreateBookUseCase.Execute | backend/bookstore/internal/usecase/book/create_book.go:20-45 | the referenced book is left as prepared, and the repository's answer for it is returned, error or book |
| TrendingBooksUseCase.AuthorLineNamesEveryAuthor | backend/bookstore/internal/usecase/book/get_trending_books.go:61-64 | no authors give "Unknown Author", one author is the whole line, and every author occurs in the line |
| TrendingBooksUseCase.SecureThumbnailRewrite | backend/bookstore/internal/usecase/book/get_trending_books.go:73-76 | an "http://" link becomes "https://" plus the rest and any other link is unchanged; the result never starts with "http://" and the rewrite is idempotent |
| TrendingBooksUseCase.DisplayPrice | backend/bookstore/internal/usecase/book/get_trending_books.go:66-70 | a zero price is replaced with the placeholder and any other price is kept |
| TrendingBooksUseCase.TrendingBook | backend/bookstore/internal/usecase/book/get_trending_books.go:78-89 | id, title, rating and book link come from the item; the author is the author line, the price the display price, the cover the secured thumbnail; category is "Trending", not featured, external; the fields the literal leaves out are empty |
| TrendingBooksUseCase.Execute | backend/bookstore/internal/usecase/book/get_trending_books.go:44-94 | the transport, status and decode errors come in that order with their messages; success happens exactly when all three checks pass, and yields one book per item, in order |
| UserHandler.Overwrite | backend/bookstore/internal/infrastructure/server/handlers/user_handler.go:181-211 | a given field overwrites the previous value, an absent one keeps it |
| UserHandler.OverwriteNullable | backend/bookstore/internal/infrastructure/server/handlers/user_handler.go:195-202 | an absent image keeps the old one, "" clears it, any other text is stored |
| UserHandler.NewPasswordHash | backend/bookstore/internal/infrastructure/server/handlers/user_handler.go:187-194 | a given password is stored only as its hash; a hashing failure gives 500 "failed to hash password" |
| UserHandler.NewLastReadDate | backend/bookstore/internal/infrastructure/server/handlers/user_handler.go:212-223 | absent keeps the date and "" clears it; any other value must parse as RFC 3339, or the result is 400 with the RFC 3339 message |
| UserHandler.Merge | backend/bookstore/internal/infrastructure/server/handlers/user_handler.go:166-229 | the merge fails exactly on a hash or date failure, and a hash failure is reported first; the merged record has the parsed id and each field overwritten as above; UpdatedAt is now, and CreatedAt is the second clock reading only when it was zero |
| UserHandler.EmptyUpdateTouchesOnlyTimestamps | backend/bookstore/internal/infrastructure/server/handlers/user_handler.go:166-229 | an update with no fields changes only the id and the timestamps |
| UserHandler.BadIdRejectedBeforeLookup | backend/bookstore/internal/infrastructure/server/handlers/user_handler.go:130-134 | a non-integer id gives 400 "invalid user id" whatever the store holds, and nothing is stored |
| UserHandler.MissingUserNotUpdated | backend/bookstore/internal/infrastructure/server/handlers/user_handler.go:161-164 | a looked-up user with id 0 gives 404 and the store is not called |
| UserHandler.StoredRecordIsMerge | backend/bookstore/internal/infrastructure/server/handlers/user_handler.go:231-241 | whenever the store is called it receives the merge of the looked-up user under the parsed id, stamped with now; the reply is 200 exactly when the store succeeds, and then carries the store's user |
| UserHandler.ApplyAccountFields | backend/bookstore/internal/infrastructure/server/handlers/user_handler.go:181-194 | the assignments to user name, e-mail and password hash produce the merge's account fields, stopping on a hashing failure |
| UserHandler.ApplyProfileFields | backend/bookstore/internal/infrastructure/server/handlers/user_handler.go:195-211 | the assignments to the image and the three counters produce the merge's profile fields |
| UserHandler.ApplyDates | backend/bookstore/internal/infrastructure/server/handlers/user_handler.go:212-229 | the last-read date and the timestamps are set as in the merge, stopping on a bad date |
| UserHandler.ApplyChanges | backend/bookstore/internal/infrastructure/server/handlers/user_handler.go:166-229 | the field-by-field assignments compute exactly Merge |
| UserHandler.UpdateUser | backend/bookstore/internal/infrastructure/server/handlers/user_handler.go:125-242 | the handler with its early returns produces the specified reply and stored record: bad id, bad payload, lookup error, missing user, merge error, store error, success |
| NoteHandler.UserIdFromContext | backend/bookstore/internal/infrastructure/server/handlers/note_handler.go:144-165 | an absent key gives Atoi of a non-empty X-User-ID header and 0 for an empty one; an int is returned unchanged, a string value gives its Atoi, any other type gives 0; parse errors are the only failures |
| NoteHandler.TextIdRoundTrip | backend/bookstore/internal/infrastructure/server/handlers/note_handler.go:149-161 | an id written in decimal in the header, or stored as a string, reads back as that id |
| NoteHandler.MiddlewareIdNotSeen | backend/bookstore/internal/infrastructure/server/handlers/note_handler.go:146-153 | a context holding only the middleware's "userID" key and no header reads as user 0 |
| NoteHandler.GetNotes | backend/bookstore/internal/infrastructure/server/handlers/note_handler.go:98-118 | an unreadable user id gives 401, then an empty book_id gives 400; the reply is 200 exactly when the use case succeeds, and then carries its notes |
| NoteHandler.DeleteNote | backend/bookstore/internal/infrastructure/server/handlers/note_handler.go:122-141 | the same guards with note_id; 204 exactly when the deletion succeeds |
| NoteHandler.EmptyParamNeverReachesUseCase | backend/bookstore/internal/infrastructure/server/handlers/note_handler.go:105-109 | with an empty path parameter the reply does not depend on the use case, and it is 401 or 400 |
| NoteHandler.AnonymousRequestReadsUserZero | backend/bookstore/internal/infrastructure/server/handlers/note_handler.go:149-153 | with neither key nor header the 401 branch is not taken: the notes of user 0 are returned |
| DebugSetup.SafeSubstring | backend/bookstore/internal/test/test.go:324-329 | for a non-negative length the result is a prefix of s of length min(len(s), length) |
| DebugSetup.SafeSubstringTwice | backend/bookstore/internal/test/test.go:324-329 | cutting twice is cutting once at the smaller length |
| DebugSetup.StartsWithEyJProperties | backend/bookstore/internal/test/test.go:39 | the check is a prefix test for "eyJ", and the 20-byte masked key passes it exactly when the full key does |
| Strconv.AtoiItoa | backend/bookstore/internal/infrastructure/server/handlers/note_handler.go:151 | parsing the decimal form of any 64-bit integer gives it back |
| Strconv.Atoi | backend/bookstore/internal/infrastructure/server/handlers/user_handler.go:130 | a parsed value lies in the 64-bit range, and an empty string is a syntax error; the full case split is Strconv.AtoiCases |
| Strconv.ScanUintCases | backend/bookstore/internal/infrastructure/server/handlers/user_handler.go:130 | ParseUint's left-to-right scan succeeds exactly on digits worth at most the uint64 maximum, with their value, and reports a range error exactly when a digit prefix overflows before the first non-digit |
| Strconv.AtoiCases | backend/bookstore/internal/infrastructure/server/handlers/user_handler.go:130 | well-formed text in the int64 range parses to its value, well-formed text outside it is a range error, and malformed text is a range error exactly when it is 19 bytes or longer and overflows uint64 before its first non-digit, otherwise a syntax error |
| GoStrings.TrimSpaceWrapped | backend/bookstore/internal/infrastructure/security/jwt.go:35 | TrimSpace removes exactly the white space around a trimmed core |
| GoStrings.JoinContains | backend/bookstore/internal/usecase/book/get_trending_books.go:63 | every element occurs in the joined string |
| GoStrings.ContainsIffOccurs | backend/bookstore/internal/infrastructure/externalapis/gemini.go:90 | the substring test holds exactly when the pattern occurs at some position |

## Left out

- The Gemini SDK, `json.Unmarshal`, the JWT library, `HashPassword`, `time.Parse`, UUID generation and `time.Now` are foreign code. They are parameters: `generate`, `decode`, `sign`, `parse`, `hash`, `parseRFC3339`, the generated id and the clock readings.
- `context.Context`, logging and `print` calls are I/O.
- The client constructors (`NewGeminiClient`) are model-name plumbing.
- GoStrings.TrimSpace: ASCII white space only. Go also trims Unicode spaces such as U+0085 and U+00A0.
- GoStrings.EqualFoldAscii: ASCII letter case only, not Unicode simple folding.
- Go strings are byte strings; the model uses characters. The code compares and slices only ASCII literals and byte counts, so the two agree on ASCII text.
- Book prices, ratings and the model temperature are reals, not `float32`. The float32 rounding of 9.99, 0.2 and 0.3 is not modelled. Prices are only copied and compared with zero.
- NoteHandler.UserIdFromContext: the `float64` case of the type switch (`int(v)` truncation) is not modelled. Such a context value has no constructor.
- `getUserIDFromContext` returns a 64-bit int. The model does not bound `IntValue`.
- GeminiAdapter.PointTo: models the pointer slice by its values. That each pointer aliases the decoded slice's element is not represented.
- LegacyGeminiAdapter: a nil response or a nil first candidate dereferences nil in Go. The model reports this as a `Panicked` outcome; the unwinding is not modelled.
- Gin binding, routing and response writing are HTTP plumbing, as are `AuthMiddleware` and main.go. The handlers are modelled from the request values they read, and the payload arrives already bound or failed.
- CreateBookUseCase.Execute: the repository's effect on the passed book is not modelled. It is a function of the book value and cannot write back into it.
- TrendingBooksUseCase.Execute: with no items, Go's `var books []book.Book` stays nil and is sent as JSON `null`. The model's `Success([])` does not tell a nil slice from an empty one.
- The HTTP request of TrendingBooksUseCase.Execute is not modelled. Its result comes in as a `Fetch` value, and the fixed query URL is not represented.
- The streaming use case (get_chat_response_stream.go) is not modelled, because it is channel-based concurrency.
- The pass-through use cases (user/*, book get/update/delete, note create/get/delete, chat true/false and short answer) contain no logic. So do the domain constructors (`NewBook`, `NewNote`, `NewUser`) and the error variables.
- No rules are stated on the decoded quiz contents, because the code validates none. The domain file for `TrueFalse` is not part of this model. Its four fields (id, question, answer, explanation) are a placeholder: no adapter reads them and no contract depends on them.
- The handler's user record (`UserHandler.User`) follows the fields `UpdateUser` reads and writes. domain/user/model.go in this revision declares a different, smaller `User`.
- GeminiAdapter.ChatResponseImpl: every call writes the token limit, temperature and MIME type on the one shared `*genai.GenerativeModel` without a lock (externalapis/gemini.go:82-84, 111-112, 124-125, 136-137), and Gin serves each request on its own goroutine. Concurrent requests therefore race on these settings, and a request can be sent with another's. The model treats the calls as running one at a time; the settings stated by its methods, and TemperatureCarriesOver, hold only for such sequential calls. AINote.GeminiSummarizer.Summarize writes the same shared settings and has the same limit.
- Strconv.Atoi: the value Go returns beside ErrRange (clamped to the int64 bounds) is dropped; the model returns only the error. No caller reads it, and no caller tells ErrSyntax from ErrRange: the user handler replies 400 "invalid user id" and the note handler 401 "unauthorized" for any parse error.
- DebugSetup.SafeSubstring: requires a non-negative length. In Go a negative length panics at `s[:length]`; every call site passes 20.
- Security.GenerateJWT: models `time.Now().Add(24*time.Hour).Unix()` as the issue time in Unix seconds plus 86400. Sub-second clock values are not represented.

## Observations on the source

- `AuthMiddleware` stores the validated id under "userID" (infrastructure/middleware/auth_middleware.go:25).
  `getUserIDFromContext` reads "user_id". Without an X-User-ID header, a note request therefore runs as user 0
  (`NoteHandler.MiddlewareIdNotSeen`, `NoteHandler.AnonymousRequestReadsUserZero`).
- `UpdateUser` looks the user up by the raw path text but stores the record under the parsed integer. So
  "007" and "+7" look up "007" and "+7" but write id 7.
- `UpdateUser` reads the clock twice, once for `UpdatedAt` and once for a zero `CreatedAt`. The model keeps the
  two readings apart (`now`, `nowAgain`).
