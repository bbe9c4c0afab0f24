# hack2025backend core, modelled in Dafny

This project models the server side of a payments backend built on Bun, Postgres and the
Interledger Open Payments SDK:

- the input validators and the string sanitiser;
- the session and token lifecycle over the `users` and `user_sessions` tables;
- the in-memory versions of the wallets, face images, transactions, clients and `grants_manager`
  tables, with the defaults, filters and orderings of their SQL;
- the outgoing-payment grant orchestration over an abstract Open Payments client;
- the migration runner: ordering by numeric prefix, the pending filter, and the run-then-record
  loop that stops at the first failure;
- the MIME type guess for stored face images;
- the request decision chains of the wallet, sign-up, sign-in, forgot-password and reset-password
  endpoints.

Modules follow the source files:

| module | file | models |
|---|---|---|
| `Wrappers` | `wrappers.dfy` | `Option` and `Result` |
| `JsStrings` | `jsstrings.dfy` | the JavaScript string primitives used: `trim`, UTF-16 `.length`, `split` on one character, ASCII case mapping, `startsWith`, and falsy strings |
| `Sequences` | `sequences.dfy` | a sort by a total preorder (ORDER BY, `Array.prototype.sort`) and `filter` |
| `Validation` | `validation.dfy` | `src/lib/validation.ts` |
| `Auth` | `auth.dfy` | `src/lib/auth.ts`: the `AuthStore` class holds the users and sessions maps and the clock |
| `Db` | `db.dfy` | `src/lib/db.ts`: the `Database` class holds one field per table |
| `Grant` | `grant.dfy` | `src/lib/grant.ts` |
| `Migrations` | `migrations.dfy` | `playground/migrations/run-migrations.ts`: the `SchemaMigrations` class holds the applied file names |
| `FaceImages` | `faceimages.dfy` | `guessMimeType` and `readImageDataUrl` of `src/api/users/list-face-images.ts` |
| `Http` | `http.dfy` | JSON responses and the Bearer token of the Authorization header |
| `WalletsApi`, `SignupApi`, `SigninApi`, `ForgotPasswordApi`, `ResetPasswordApi` | one file each | the endpoints of `src/api/wallets.ts` and `src/api/auth/*.ts` |

How the model is built:

- **Strings.** Strings are sequences of Unicode scalar values. Every JavaScript length bound is
  written against `Utf16Length`, which counts astral characters as two code units, as `.length`
  does.
- **State.** Operations that update tables are methods of a class whose `State()` they relate to a
  specification function of the old state, for example
  `State() == DeactivateSession(old(State()), token)`. Lemmas about those functions carry the
  properties.
- **Unordered selects.** A SELECT without ORDER BY that takes a row returns any matching row
  (`:|`). This applies to getUserByEmail, getGrantById, verifyEmailToken's RETURNING and the
  reset-token lookup.
- **Handlers.** Each handler is a pure function that returns the response of the first failing
  check, or what is to be done. A method beside it makes the state changes through the classes and
  is tied to that function in its `ensures`.
- **Parameters instead of effects.** The following are parameters:
  - bcrypt hashing and verification;
  - the random token positions;
  - the generated ids;
  - the wall clock (the `now` field of each store);
  - `new URL` and `parseFloat` validation results;
  - date parsing;
  - the S3 read and base64 encoding;
  - mail delivery;
  - the Open Payments and migration SQL outcomes.

Where the design intent and the code differ, the model follows the code:

- **Interchangeable tokens.** Password-reset tokens are stored in the `email_verification_*`
  columns. While the user is unverified, either kind of token is accepted by both endpoints
  (`Auth.TokensAreInterchangeable`); verifyEmailToken refuses any token once the user is verified.
- **Grant lookup column.** getGrantById compares its argument with `client_id`, not with the `id`
  the grant was stored under (`Db.GrantLookupMissesStoredId`).
- **Sanitising is not idempotent.** `sanitizeString` trims before it strips `<` and `>`, so
  sanitising twice can trim again (`Validation.SanitizeIsNotIdempotent`).
- **Unicode upper-casing.** The currency check upper-cases with Unicode's rules, so the long s
  U+017F counts as `S` (`Validation.LongSIsAcceptedInUsd`).

## Model

| member | source | states |
|---|---|---|
| JsStrings.Trim | src/lib/validation.ts:221 | the result is the slice of the input after its leading whitespace, followed in the input only by whitespace, and neither starts nor ends with whitespace; a string without whitespace is unchanged |
| JsStrings.Utf16LengthAppend | src/lib/validation.ts:11 | the UTF-16 length of a concatenation is the sum of the lengths |
| JsStrings.Split | playground/migrations/run-migrations.ts:25 | `split` on one character gives at least one piece and no piece contains the separator |
| JsStrings.JoinSplit | playground/migrations/run-migrations.ts:25 | joining the pieces of a split with the separator gives back the string |
| JsStrings.SplitJoin | playground/migrations/run-migrations.ts:25 | splitting the join of separator-free pieces gives back the pieces |
| JsStrings.OrNull | src/api/auth/signin.ts:9-11 | a string is falsy exactly when it is absent or empty; a truthy one is kept unchanged |
| Sequences.SortBy | playground/migrations/run-migrations.ts:34 | the sort returns a permutation of its input |
| Sequences.SortBySorted | playground/migrations/run-migrations.ts:34 | for a total preorder, the sorted sequence is ordered by it |
| Sequences.Filter | src/lib/db.ts:172-176 | the result holds exactly the elements satisfying the predicate, each kept one as often as in the input |
| Sequences.FilterKeepsOrder | playground/migrations/run-migrations.ts:128 | a filtered sequence keeps any ordering the input had |
| Sequences.FilterAppend | playground/migrations/run-migrations.ts:128 | filtering distributes over concatenation |
| Validation.EmailShapeIsPattern | src/lib/validation.ts:9-12 | the address pattern holds exactly when the address has no whitespace, exactly one `@`, a non-empty local part, and a domain with a `.` that has a character on each side |
| Validation.ValidateEmail | src/lib/validation.ts:9-12 | valid exactly when the pattern matches and the address is at most 255 UTF-16 code units long |
| Validation.ValidatePassword | src/lib/validation.ts:18-41 | valid exactly when 8 <= length <= 128 and exactly when there are no errors; at most one error, which is the too-short or too-long message |
| Validation.AgeIsCompletedYears | src/lib/validation.ts:62-68 | the computed age is the number of completed years: that anniversary has been reached and the next has not; the age is negative exactly when the birth date lies after today |
| Validation.ValidateAge | src/lib/validation.ts:46-101 | an unparsable date is refused; a future date gives age 0 and the future-date error; otherwise it is valid exactly when 18 <= age <= 150, and the under-age check comes before the implausible-age check |
| Validation.PhoneDigits | src/lib/validation.ts:111 | the result keeps every ASCII digit of the phone, as often as it occurs, and only digits |
| Validation.ValidatePhone | src/lib/validation.ts:107-115 | the empty phone is accepted; otherwise accepted exactly when it holds 10 to 15 digits |
| Validation.ValidateCurrencyCode | src/lib/validation.ts:155-172 | an accepted code has three characters, each an ASCII letter or one of the two non-ASCII letters (U+0131, U+017F) that upper-case to ASCII |
| Validation.CurrencyCodeAccepted | src/lib/validation.ts:155-172 | a code is accepted exactly when it spells one of the eleven listed codes letter by letter, each letter in upper or lower case or as the one non-ASCII letter that upper-cases to it |
| Validation.CurrencyCodeIgnoresCase | src/lib/validation.ts:171 | a code and its upper-case form are judged alike |
| Validation.ListedCurrenciesAccepted | src/lib/validation.ts:157-169 | every listed code is accepted in upper and in lower case |
| Validation.LongSIsAcceptedInUsd | src/lib/validation.ts:171 | "uſd" is accepted because its upper case is "USD" |
| Validation.StripAngles | src/lib/validation.ts:222 | no `<` or `>` remains and every other character keeps its multiplicity |
| Validation.TakeUnits | src/lib/validation.ts:223 | the longest prefix of at most n UTF-16 code units; the whole string when it fits |
| Validation.SanitizeString | src/lib/validation.ts:219-224 | at most 1000 code units, no `<` or `>`, and a prefix of the trimmed input with the angle brackets removed |
| Validation.SanitizeIsNotIdempotent | src/lib/validation.ts:219-224 | sanitising "a >" gives "a ", and sanitising that again gives "a" |
| Validation.ValidateWalletName | src/lib/validation.ts:229-250 | valid exactly when the trimmed name has 1 to 100 code units; empty and too-long names get their own errors |
| Validation.ValidateName | src/lib/validation.ts:255-284 | valid exactly when the trimmed name has 1 to 255 code units and an ASCII letter; the letter rule is reported only once the length rules pass |
| Validation.CharsetIsAlphanumeric | src/lib/validation.ts:290 | the charset has 62 characters and holds exactly the ASCII letters and digits |
| Validation.TokenOf | src/lib/validation.ts:289-299 | a token has one character per random pick, each alphanumeric |
| Validation.GenerateToken | src/lib/validation.ts:289-299 | the loop builds a token of the requested length whose i-th character is the charset entry of the i-th pick |
| Auth.CreatedSessionLifetime | src/lib/auth.ts:63-99 | a new session of an active user is valid for exactly the configured number of minutes (five when unset) and signs in that user |
| Auth.DeleteSessionInvalidates | src/lib/auth.ts:147-153 | after deleteSession(t), validateSession(t) fails and every other session and user is as it was |
| Auth.DeleteAllUserSessionsExactly | src/lib/auth.ts:158-164 | exactly the sessions of the user become inactive and are refused; the others are unchanged |
| Auth.TouchKeepsValidity | src/lib/auth.ts:129-136 | recording the last activity changes no outcome of validateSession |
| Auth.CleanupKeepsValidity | src/lib/auth.ts:363-372 | cleanup deactivates only active sessions that expired strictly before now, changes no validateSession outcome, and leaves a session expiring at now both invalid and active |
| Auth.VerifyEmailConsumesToken | src/lib/auth.ts:251-268 | a verification token is accepted only while it is unexpired and the user is unverified; the user is then verified and the token no longer matches; other users and the sessions are untouched |
| Auth.TokensAreInterchangeable | src/lib/auth.ts:231-358 | a 24-hour verification token is accepted by the password-reset lookup until it expires, and a 1-hour reset token verifies the email of an unverified user until it expires |
| Auth.ResetPasswordEffects | src/lib/auth.ts:329-358 | a reset stores the new hash, deactivates every session of the user and clears the token, which is then refused; other users keep their rows |
| Auth.AuthStore.CreateSession | src/lib/auth.ts:63-99 | the new session expires `SESSION_DURATION_MINUTES` (default 5) times 60000 ms from now, is active, and is the only change |
| Auth.AuthStore.ValidateSession | src/lib/auth.ts:105-142 | returns the user exactly when the token's session is unexpired and active and its user is active, and records the activity time |
| Auth.AuthStore.DeleteSession | src/lib/auth.ts:147-153 | the token's session becomes inactive |
| Auth.AuthStore.DeleteAllUserSessions | src/lib/auth.ts:158-164 | every session of the user becomes inactive |
| Auth.AuthStore.GetUserByEmail | src/lib/auth.ts:169-179 | `None` exactly when no user has the email; otherwise the selected columns of one user that has it |
| Auth.AuthStore.CreateUser | src/lib/auth.ts:197-226 | inserts an unverified, active user without a token and returns its public fields |
| Auth.AuthStore.GenerateEmailVerificationToken | src/lib/auth.ts:231-246 | a 32-character alphanumeric token is written to the user with a 24-hour expiry |
| Auth.AuthStore.VerifyEmailToken | src/lib/auth.ts:251-268 | returns a user exactly when some user matches the token, and that user is returned verified; every matching user is verified and loses the token |
| Auth.AuthStore.ChangePassword | src/lib/auth.ts:284-298 | the new hash is stored and every session of the user is deactivated |
| Auth.AuthStore.GeneratePasswordResetToken | src/lib/auth.ts:303-324 | `None`, with nothing changed, exactly for an unknown email; otherwise a 32-character token with a 1-hour expiry in the email-verification columns of a user with that email |
| Auth.AuthStore.ResetPasswordWithToken | src/lib/auth.ts:329-358 | `None`, with nothing changed, exactly when no user holds the token unexpired; otherwise that user's password is reset as `ResetPasswordState` describes |
| Auth.AuthStore.CleanupExpiredSessions | src/lib/auth.ts:363-372 | the state becomes the cleaned-up sessions |
| Db.WalletsOf | src/lib/db.ts:172-176 | exactly the user's active wallets, each as often as in the table, primary wallets first and then newest first |
| Db.CreatedWalletIsListed | src/lib/db.ts:163-170 | an absent or zero balance is stored as 0, an absent or false flag as non-primary; the new wallet is listed for its owner and no other user's list changes |
| Db.FacesOf | src/lib/db.ts:196-214 | exactly the user's active face images, each as often as in the table, primary images first and then newest upload first with missing upload times last |
| Db.SortedFacesOrdered | src/lib/db.ts:212 | ordered by the face comparator, primary images come first, and within each group later uploads come first and missing upload times last |
| Db.TransactionDefaults | src/lib/db.ts:266-286 | the payment type defaults to "outgoing" and the status to "completed"; the snapshot is the snapshot id, else the snapshot, else null; a zero or absent confidence is stored as null |
| Db.GrantTokenUpdateThenRead | src/lib/db.ts:356-374 | updating a client's grant token changes only that token, and reading it back gives the new value |
| Db.GrantLookupMissesStoredId | src/lib/db.ts:392-411 | a grant stored under a transaction id is not found when that id is looked up, since the lookup compares it with `client_id` |
| Db.Database.CreateWallet | src/lib/db.ts:163-170 | appends the wallet with its defaults and changes no other table |
| Db.Database.GetWalletsByUserId | src/lib/db.ts:172-176 | returns the user's wallets as `WalletsOf` lists them |
| Db.Database.CreateFaceImage | src/lib/db.ts:187-194 | appends the face image with its defaults and changes no other table |
| Db.Database.GetFaceImagesByUserId | src/lib/db.ts:196-214 | returns the user's face images as `FacesOf` lists them |
| Db.Database.InsertTransaction | src/lib/db.ts:243-290 | appends the row with the defaults of `NewTransaction` and changes no other table |
| Db.Database.InsertClient | src/lib/db.ts:330-340 | adds exactly the new client |
| Db.Database.GetClientById | src/lib/db.ts:349-354 | the client exactly when one has the id |
| Db.Database.GetGrantTokenByClientId | src/lib/db.ts:356-361 | the grant token exactly when the client exists |
| Db.Database.UpdateGrantTokenByClientId | src/lib/db.ts:363-374 | only that client's token changes, and the updated client is returned |
| Db.Database.InsertGrant | src/lib/db.ts:392-403 | a duplicate id is refused with nothing changed; otherwise exactly one row stamped with the clock is added |
| Db.Database.GetGrantById | src/lib/db.ts:405-411 | `None` exactly when no row has the argument as its `client_id`; otherwise one such row |
| Grant.CreateClient | src/lib/grant.ts:15-29 | "Client not found" exactly when no client row exists, and then no remote call is made |
| Grant.QuoteChain | src/lib/grant.ts:31-105 | the calls start with the sending wallet; every incoming payment asks amount times 100; on success six calls were made and the quote comes from the sending wallet's resource server |
| Grant.IncomingValueIgnoresScale | src/lib/grant.ts:66-70 | the incoming value is amount times 100 whatever the receiving wallet's asset scale |
| Grant.FinishUriCarriesTxId | src/lib/grant.ts:144-151 | the finish URI is the redirect base, "?t=" and the transaction id, and distinct ids give distinct URIs |
| Grant.OutgoingGrantRequest | src/lib/grant.ts:128-151 | one outgoing-payment access with actions read and create, the quote's debit amount as limit, the sending wallet as identifier, a redirect start, and the finish URI with the transaction id as nonce |
| Grant.StartOutgoingPaymentGrant | src/lib/grant.ts:109-164 | a missing or zero amount and an unknown client fail before any remote call; a failure of createClient, of the quote chain or of the grant request is passed on, a response without `continue` is a TypeError and a duplicate id a database error; it succeeds exactly when the grant request answers with a continuation and the id is new, and then the grant request is built from the quote, the continuation is stored under the returned transaction id, and no other table changes |
| Grant.WaitForGrantFinalization | src/lib/grant.ts:170-220 | a failing createClient or a missed lookup fails without a continue call; a found grant leads to exactly one continue call, with a stored row's uri and value; the token is written exactly when that call answers with a finalized grant, and only that token; the process exits exactly on an `OpenPaymentsClientError` or a grant that is not finalized; any other error is rethrown |
| Migrations.DecimalRoundTrip | playground/migrations/run-migrations.ts:25 | parsing the decimal text of a number gives the number |
| Migrations.LeadingZeroIgnored | playground/migrations/run-migrations.ts:25 | a leading zero does not change the parsed value |
| Migrations.OrderOfNumberedFile | playground/migrations/run-migrations.ts:25 | the order of "n_rest" is n, and a file with an empty prefix has order 0 |
| Migrations.ByOrderIsTotal | playground/migrations/run-migrations.ts:34 | the sort comparator is a total preorder |
| Migrations.Loaded | playground/migrations/run-migrations.ts:18-35 | one migration per file, a permutation of the files, in non-decreasing order |
| Migrations.LoadedFromFiles | playground/migrations/run-migrations.ts:25-31 | every loaded migration comes from a file with its order computed from its name, and every file is loaded |
| Migrations.LoadMigrations | playground/migrations/run-migrations.ts:18-35 | the loop and sort produce `Loaded(files)` |
| Migrations.PendingMembers | playground/migrations/run-migrations.ts:128 | pending holds exactly the loaded migrations whose file name has not been applied |
| Migrations.PendingKeepsOrder | playground/migrations/run-migrations.ts:128 | pending keeps the non-decreasing order of the loaded migrations |
| Migrations.NothingPending | playground/migrations/run-migrations.ts:128-133 | nothing is pending exactly when the name of every file is already applied |
| Migrations.FileRecordedOrPending | playground/migrations/run-migrations.ts:128 | each file is either already applied or its migration is pending |
| Migrations.PendingComesFromFile | playground/migrations/run-migrations.ts:128 | a pending migration comes from a file whose name is not applied |
| Migrations.Record | playground/migrations/run-migrations.ts:101-107 | the file name is recorded, and recording one already present changes nothing |
| Migrations.RecordAllAppend | playground/migrations/run-migrations.ts:138-141 | recording names one after another is the same as recording them in one go |
| Migrations.RecordAllContents | playground/migrations/run-migrations.ts:138-141 | the applied names afterwards are the old ones and the given ones; names that are new and distinct are appended in order |
| Migrations.RecordAllMembers | playground/migrations/run-migrations.ts:138-141 | after recording a list of names, exactly the old entries and the given names are recorded |
| Migrations.RecordAllFresh | playground/migrations/run-migrations.ts:138-141 | names not yet recorded and distinct from each other are appended in their order |
| Migrations.SchemaMigrations.RecordMigration | playground/migrations/run-migrations.ts:101-107 | the table becomes `Record` of the old table |
| Migrations.FirstFailure | playground/migrations/run-migrations.ts:40-48 | `None` exactly when every migration succeeds; otherwise the index of the first that fails |
| Migrations.FirstFailureAt | playground/migrations/run-migrations.ts:138-152 | a migration that fails after every earlier one succeeded is the first failure |
| Migrations.ApplyPending | playground/migrations/run-migrations.ts:138-152 | each migration is recorded only after it succeeds; on the first failure the run stops, that one is run but not recorded and no later one is run |
| Migrations.AllRecorded | playground/migrations/run-migrations.ts:138-147 | after recording all pending names, every loaded file and every old entry is recorded |
| Migrations.RunUpToDate | playground/migrations/run-migrations.ts:130-133 | the run is up to date exactly when every file is applied, and then nothing is run or recorded |
| Migrations.RunCompleted | playground/migrations/run-migrations.ts:138-147 | after a full run every file is applied, old entries are kept, and the summary counts the pending migrations as newly applied |
| Migrations.RunStopsAtFailure | playground/migrations/run-migrations.ts:138-152 | on exit the run is a prefix of the pending names whose last item failed and whose earlier items succeeded and are the only ones recorded |
| Migrations.RunMigrations | playground/migrations/run-migrations.ts:109-153 | without a connection or table the process exits and nothing is run; otherwise the outcome, the run migrations and the table are those of `Run` |
| FaceImages.LastPieceIsTextAfterLastSeparator | src/api/users/list-face-images.ts:9 | the last split piece is the text after the last separator, or the whole string when there is none |
| FaceImages.LastPieceIsSuffix | src/api/users/list-face-images.ts:9 | the last split piece is a suffix of the key, preceded by the separator when shorter than the key |
| FaceImages.Extension | src/api/users/list-face-images.ts:9 | the extension has no dot and is no longer than the key |
| FaceImages.MimeOfExtension | src/api/users/list-face-images.ts:10-19 | the switch always gives one of the four MIME types |
| FaceImages.GuessMimeType | src/api/users/list-face-images.ts:7-21 | always one of the four MIME types; PNG for a null, undefined or empty key |
| FaceImages.MimeOfKnownExtensions | src/api/users/list-face-images.ts:9-19 | after the last dot, jpg and jpeg in any case give JPEG, gif gives GIF, webp gives WebP, and anything else gives PNG |
| FaceImages.MimeOfDotlessKey | src/api/users/list-face-images.ts:9 | a key without a dot is its own extension |
| FaceImages.ReadImageDataUrl | src/api/users/list-face-images.ts:23-34 | `None` exactly for a missing key or a failed read; otherwise a data URL with the guessed type and the base64 content |
| Http.BearerToken | src/api/wallets.ts:27-33 | a token exactly when the header is present and starts with "Bearer "; it contains no space |
| Http.BearerTokenIsSecondField | src/api/wallets.ts:31 | the token is the second space-separated field of the header |
| Http.BearerTokenRoundTrip | src/api/wallets.ts:27-33 | a header built from a space-free token gives that token back |
| WalletsApi.BodyError | src/api/wallets.ts:39-52 | none exactly when all checks pass; name, URL, currency and amount are reported in that order |
| WalletsApi.AmountCheckedOnlyWhenGiven | src/api/wallets.ts:49-52 | without a truthy initial amount, the amount validation makes no difference |
| WalletsApi.CreateWalletDecision | src/api/wallets.ts:25-62 | 401 for a missing or non-Bearer header and for an invalid session; a 400 carries the first failing check's error; accepted exactly when all pass, for the session's user with the amount or 0 and `!!is_primary` |
| WalletsApi.AcceptedWalletIsListed | src/api/wallets.ts:54-64 | the created wallet belongs to the session's user, holds the amount or 0, is active and is listed for that user |
| WalletsApi.CreateWalletEndpoint | src/api/wallets.ts:25-70 | a refusal creates nothing; an accepted request appends exactly the decided wallet and returns it |
| WalletsApi.ListWallets | src/api/wallets.ts:6-23 | 401 without a valid session; otherwise only the session user's listed wallets |
| SignupApi.ValidationError | src/api/auth/signup.ts:12-29 | none exactly when all checks pass; email, password (its first error), name and age are reported in that order |
| SignupApi.Refusal | src/api/auth/signup.ts:6-35 | 500 for an unreadable body, 400 with the first validation error, 409 for a registered email, and no refusal exactly when the account is to be created |
| SignupApi.RegisteredUserSignedIn | src/api/auth/signup.ts:38-47 | the new user is unverified and active, holds the password hash and a 24-hour verification token, nobody else changed, and the returned token signs the new user in |
| SignupApi.Signup | src/api/auth/signup.ts:6-63 | a refusal changes nothing; otherwise the reply holds the session token and only id, email, name and the unverified flag, and the state is `Registered` |
| SignupApi.CreateAccount | src/api/auth/signup.ts:38-47 | createUser, createSession and the verification token take the tables to `Registered`, and the reply carries the new session token and the unverified user |
| SigninApi.Credentials | src/api/auth/signin.ts:9-11 | credentials exactly when both fields are truthy |
| SigninApi.CheckCredentials | src/api/auth/signin.ts:13-21 | accepted exactly when the user exists and the password matches its hash; every refusal is the same 401 |
| SigninApi.UnknownEmailLooksLikeWrongPassword | src/api/auth/signin.ts:13-21 | an unknown email and a wrong password are answered identically |
| SigninApi.SigninResponse | src/api/auth/signin.ts:4-41 | 500 for an unreadable body, 400 for missing credentials, 401 for bad ones, 200 exactly when they pass, with the session token and only id, email, name and email_verified |
| SigninApi.Signin | src/api/auth/signin.ts:4-41 | a session is created only on a 200, for the user whose password matched; any other answer changes nothing |
| ForgotPasswordApi.ForgotPassword | src/api/auth/forgot-password.ts:5-31 | 400 without an email; an unknown and a known email get the same notice when the mail goes out; mail is sent only for a known email, with the token written with a 1-hour expiry |
| ResetPasswordApi.RequestError | src/api/auth/reset-password.ts:10-17 | 400 when the token or password is missing; then the first password error |
| ResetPasswordApi.PasswordCheckedBeforeToken | src/api/auth/reset-password.ts:14-17 | with both fields present, the request is refused exactly for a password of the wrong length, whatever the token |
| ResetPasswordApi.ResetPassword | src/api/auth/reset-password.ts:5-31 | refusals (500, 400, invalid or expired token) change nothing; success resets the password of a user holding the token and answers "Password reset successfully" |

## Left out

- Database, remote and mail exceptions other than the ones named below are not modelled. In the
  source each of them sends a handler to its 500 branch.
- The JSON body of a handler is either unreadable (the 500 branch) or has string fields. JSON
  values of other types in those fields are not modelled.
- The clock is one value per store. `Date.now()` and SQL `NOW()` are not told apart.
- Sessions are keyed by their token. Each generated UUIDv7 token and each generated row id is
  assumed fresh.
- Auth.AuthStore.CreateSession: requires the generated token to be new. The source relies on the
  UUIDv7 generator for that.
- SignupApi.Signup: requires the generated user id and session token to be new, as the database
  and the UUIDv7 generator provide.
- SigninApi.Signin: requires the generated session token to be new.
- Auth.SessionMinutes: `SESSION_DURATION_MINUTES` is the number it holds when set. A non-numeric
  value (NaN, then an Invalid Date) is not modelled.
- Auth.AuthStore.CleanupExpiredSessions: the returned count is left out. It is `result.length` of
  an UPDATE without RETURNING, whose value depends on the driver.
- Auth.AuthStore.GetUserByEmail: emails are not assumed unique. The method returns any user with
  the email, since the table has no uniqueness constraint in the source shown.
- Validation.TakeUnits: a cut inside a surrogate pair keeps a lone surrogate in JavaScript. The
  model drops the whole character, since Dafny strings hold scalar values.
- Upper-casing maps ASCII, U+0131 and U+017F. The ligatures that upper-case to several letters
  spell no listed currency code. Lower-casing is ASCII only, which changes no extension the MIME
  switch names.
- validateWalletUrl (`new URL`) and validateAmount (`parseFloat`, decimal places from
  `toString`) are floating point and platform parsing. The wallet endpoint takes their results as
  parameters.
- Amounts are real numbers. IEEE rounding, NaN from `parseFloat`, and the text form of
  `amount * 100` are not modelled.
- validateAge takes the parsed date, or `None` when `new Date` gives an Invalid Date. Date
  parsing and time zones are not modelled.
- The status, uploaded_at and match_count defaults of a face image are written by the database.
  The model uses "active", the clock and 0.
- Db.NewWallet: the status and created_at of a wallet are column defaults that the source never
  writes. The model assumes "active" and the clock. `Db.CreatedWalletIsListed` and
  `WalletsApi.AcceptedWalletIsListed` rely on the "active" default.
- Auth.NewSession: the is_active flag of a new session is a column default that the source never
  writes. The model assumes true. `Auth.CreatedSessionLifetime` relies on it.
- Grant: the Open Payments servers are fixed functions. KEY_ID, the private key file and the
  console output are not modelled.
- Migrations.MigrationOrder: requires an all-digit prefix. `parseInt` also accepts prefixes like
  "12abc" and gives NaN for non-numeric ones, which makes the sort order engine-defined.
- Migrations.Loaded: states the order and the permutation, not the stability of the sort. The
  relative order of migrations with equal order numbers is not promised.
- Migrations: reading the migration files, executing their SQL, a failing getMigratedFiles (which
  the source turns into an empty list) and a failing recordMigration are not modelled. Recording
  always succeeds in the model.
- FaceImages: listFaceImages, the S3 read and the base64 encoding are not modelled.
  ReadImageDataUrl takes the encoded content, or `None` when the read throws.
- SignupApi.Signup: the verification email is sent without waiting for it and cannot change the
  response, so it is not modelled. The verification token it carries is.
- ForgotPasswordApi.ForgotPassword: the mail content is not modelled. Only its recipient, name
  and token are.
- The CORS wrapper of `src/lib/Response.ts` and the serialisation of response bodies are not
  modelled.
- `JSON.stringify` of transaction metadata is not modelled. The model stores metadata as the text
  it is given.
