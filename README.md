# Global Bangla competition back end — a Dafny model

This project models the request-handling core of an Express/MySQL back end. The back
end runs student competitions. Students sign up, log in, submit entries and pay
competition fees through Razorpay. Administrators create and edit competitions, review
submissions, publish winners and edit the site settings. The model covers these parts:

- the two session guards and the admin and user route tables that place them before each handler;
- the upload middleware: the MIME allow-list, the `<folder>-<uuid><ext>` file name and the size limits;
- the account and credential rules: sign-up, login, the capped admin invite flow and single-use password-reset records;
- the payment order ladder and signature verification;
- the partial-update merges (`COALESCE` with `??` or `||`) and the create defaults of the admin and profile handlers;
- the positional `params` arrays the handlers push, proved to line up with their `SET` lists.

The database is an in-memory `Store.Db` object. It holds one map per table, from
auto-increment id to row, and the next id of each table. Handlers that change tables
are module-level methods that take the `Db` as a parameter, with field-level `modifies`
frames. Request values are JavaScript
values (`Js.JsVal`), so that truthiness, `||` versus `??`, template-literal text and
`WHERE id = ?` matching follow JavaScript and MySQL. Hashing, HMAC, bcrypt, token
signing, uuid, the clock, the mailer and the Razorpay client are all parameters.

Modules: `Wrappers`, `Http`, `Js`, `Sql`, `JsonPath`, `Store`, `AuthMiddleware`,
`UploadMiddleware`, `Router`, `AdminRoutes`, `UserRoutes`, `AdminController`,
`AuthController` and `UserController`.

## Model

| member | source | states |
|---|---|---|
| AuthMiddleware.EnsureAuthenticated | src/middleware/authMiddleware.js:1-6 | calls `next` exactly when a session with a user exists; otherwise halts with 401 "Authentication required" |
| AuthMiddleware.EnsureAdmin | src/middleware/authMiddleware.js:8-13 | calls `next` exactly when the session user's role is the string `'admin'`; every other case, no session included, halts with 403 "Admin privileges required" and never 401 |
| AuthMiddleware.AdminPassesAuthentication | src/middleware/authMiddleware.js:1-13 | a session that passes the admin check also passes authentication |
| AuthMiddleware.AdminCheckWithoutSession | src/middleware/authMiddleware.js:8-13 | with no session at all the admin check answers 403, not 401 |
| Router.RunChain | src/routes/adminRoutes.js:32-54 | the chain reaches the handler exactly when every step calls `next`; otherwise the first step that answers is the one that halts it, and every earlier step passed |
| Router.RunsOnlyAfterEarlierSteps | src/routes/adminRoutes.js:32-54 | a step runs only when every step before it called `next` |
| AdminRoutes.EveryRouteGuarded | src/routes/adminRoutes.js:32-54 | all 16 admin routes start with `adminGuard` (authenticate, then admin check), and everything after it is an upload |
| AdminRoutes.ComposedOutcome | src/routes/adminRoutes.js:32-54 | on every admin route: no user gives 401 from step 0, a non-admin user gives 403 from step 1, and an admin gets past both guards |
| AdminRoutes.NoHandlerWithoutAdmin | src/routes/adminRoutes.js:34-54 | an admin handler is reached only with an admin session |
| AdminRoutes.UploadOnlyAfterAdminGuard | src/routes/adminRoutes.js:37-49 | the competition, winner and logo uploads run only after both guards passed, for an admin session |
| AdminRoutes.UploadRoutes | src/routes/adminRoutes.js:37-49 | exactly four admin routes carry an upload, each with its uploader, form field and handler |
| UserRoutes.RouteGuards | src/routes/userRoutes.js:28-56 | of the 12 user routes exactly `/competitions-public` and `/site-settings` are public; every other starts with `ensureAuthenticated`; none applies the admin check |
| UserRoutes.NoGuardedHandlerWithoutUser | src/routes/userRoutes.js:28-39 | a guarded user handler is reached only when the session has a user |
| UserRoutes.UploadOnlyWhenSignedIn | src/routes/userRoutes.js:34-36 | the submission and profile-picture uploads are the only uploads, at step 1, and run only for a signed-in user |
| UserRoutes.PublicCompetitions | src/routes/userRoutes.js:42-53 | the public listing fails with 500 "Unable to fetch competitions." exactly when `query` is not in scope, and otherwise lists the active competitions |
| UserRoutes.PublicCompetitionsAlwaysFails | src/routes/userRoutes.js:4-26 | with the file's own imports, the public listing answers 500 whatever the table holds |
| UserRoutes.PublicCompetitionsCorrected | src/routes/userRoutes.js:44-48 | with `query` imported, the listing holds exactly the competitions whose status is `'active'` |
| UserRoutes.ActiveIds | src/routes/userRoutes.js:44-47 | an id is listed exactly when its competition's status is `'active'` |
| UploadMiddleware.FileFilter | src/middleware/uploadMiddleware.js:18-25 | accepts exactly the seven listed MIME types; any other type is rejected with "Unsupported file format" |
| UploadMiddleware.Extname | src/middleware/uploadMiddleware.js:10 | the extension is empty or a dot followed by no further dot or slash, and it ends the name once trailing slashes are removed; it is empty exactly when the last path segment has no dot, starts with its only dot, or is `..`, so otherwise it runs from that segment's last dot to its end |
| UploadMiddleware.StoredNameKeepsExtension | src/middleware/uploadMiddleware.js:9-12 | the stored name `<folder>-<uuid><ext>` has no slash and has the original name's extension, for every client-supplied name |
| UploadMiddleware.ExtnameOfStemAndSuffix | src/middleware/uploadMiddleware.js:10-11 | a dot-free, slash-free stem followed by an extension-shaped suffix has that suffix as its extension |
| UploadMiddleware.CreateUploader | src/middleware/uploadMiddleware.js:15 | an omitted limit is 10 MiB (10485760 bytes); a given limit is kept |
| UploadMiddleware.UploaderLimits | src/middleware/uploadMiddleware.js:28-32 | the submissions uploader allows 200 MiB; the profile, competition, winner and logo uploaders allow 10 MiB |
| UploadMiddleware.Single | src/middleware/uploadMiddleware.js:5-26 | no file, or a file part with an empty name (which multer skips), leaves `req.file` unset; a part under another field is "Unexpected field"; a disallowed type is the filter's error; an allowed type over the size limit is "File too large"; an allowed type within the limit is stored; a stored file passed the field, filter and size checks and gets the generated name and `uploads/<folder>` destination |
| UploadMiddleware.UploadedPath | src/controllers/adminController.js:49 | the stored path is `/uploads/<folder>/<filename>` with a file and NULL exactly without one |
| Js.OrVersusCoalesce | src/controllers/adminController.js:80-89 | `\|\|` and `??` differ only on falsy values that are not nullish (`''`, `0`, `false`), where `??` keeps the value and `\|\|` drops it |
| Js.AsId | src/controllers/adminController.js:97-110 | a bound value selects a row only if it is a number, a boolean (`true` is 1, `false` is 0, as the driver sends them) or a non-empty digit string |
| Js.BooleanIds | src/utils/query.js:3-6 | a bound `true` selects row 1 and `false` row 0, as the driver sends booleans |
| Js.IdOfDecimalText | src/controllers/adminController.js:78-110 | a route parameter holding an id's decimal text selects the same row as the number |
| Js.DecimalRoundTrip | src/controllers/userController.js:203 | the decimal text of a number reads back as that number |
| Js.RupeesTextRoundTrip | src/controllers/userController.js:191 | `Math.round(Number(x) * 100)` of a two-decimal rupee text gives back the paise exactly |
| Js.FeeScenario | src/controllers/userController.js:191 | a fee of "499.00" becomes an order of 49900 paise |
| Sql.KeepIfNullish | src/controllers/adminController.js:80-108 | `COALESCE(x ?? null, col)` keeps the column exactly when the input is null or undefined, and otherwise stores the input |
| Sql.KeepIfFalsy | src/controllers/userController.js:153-159 | `COALESCE(x \|\| null, col)` keeps the column exactly when the input is falsy, and otherwise stores the input |
| Sql.EmptyStringMerges | src/controllers/adminController.js:81 | an empty string overwrites under the `??` merge and is ignored under the `\|\|` merge |
| Sql.ExecSetsStep | src/controllers/adminController.js:99-112 | running a SET list from entry `i` is running entry `i` with its own placeholder, then the rest |
| Sql.UpdateWhereId | src/controllers/adminController.js:110 | `UPDATE ... WHERE id = ?` changes only the selected row and keeps every id |
| Sql.DeleteWhereId | src/controllers/adminController.js:124 | `DELETE ... WHERE id = ?` removes only the selected row and keeps every other row unchanged |
| Store.AdminCountAfterInsert | src/controllers/authController.js:119-129 | inserting under a fresh id adds one admin exactly when the new row is an admin |
| Store.InsertKeepsEmailsUnique | src/controllers/authController.js:32-40 | inserting a user whose email is not in use keeps emails unique |
| AdminController.NewCompetition | src/controllers/adminController.js:35-67 | `is_paid` is true exactly for `'true'` or `true`; fee defaults to 0, status to `'draft'`, the dates to NULL; the thumbnail is `/uploads/competitions/<filename>` with a file and NULL without; the rest is the input |
| AdminController.CreateCompetition | src/controllers/adminController.js:35-74 | inserts the defaulted row under the next id and answers 201 when every bound value is defined; otherwise 500 with nothing changed |
| AdminController.MergeCompetition | src/controllers/adminController.js:80-108 | each field keeps its value when its input is null or undefined and takes the input otherwise, `''` included; the thumbnail changes only with a file; the creator never changes |
| AdminController.BuildCompetitionParams | src/controllers/adminController.js:80-97 | the pushed `params` hold one value per placeholder, the thumbnail path only with a file, and the id last; the bind succeeds exactly when the id is defined |
| AdminController.CompetitionPrefix | src/controllers/adminController.js:101-108 | the eight `COALESCE` entries each take their own placeholder |
| AdminController.CompetitionBinding | src/controllers/adminController.js:91-111 | the SET list run over the pushed `params` is exactly the field-wise merge, with or without the thumbnail clause |
| AdminController.UpdateCompetition | src/controllers/adminController.js:76-119 | only the row with the given id changes, to its merge; answers 200 "Competition updated." |
| AdminController.MergeCompetitionIdempotent | src/controllers/adminController.js:99-112 | repeating the same update changes nothing further |
| AdminController.EmptyPatchKeepsCompetition | src/controllers/adminController.js:80-89 | an update with every field missing and no file leaves the row unchanged |
| AdminController.DeleteCompetition | src/controllers/adminController.js:121-130 | removes only the row with the given id, which is then absent; answers "Competition removed." |
| AdminController.UpdateSubmissionStatus | src/controllers/adminController.js:163-173 | writes the status unvalidated to that submission only and answers 200; a missing status makes the driver refuse, answering 500 with nothing changed |
| AdminController.DeleteSubmission | src/controllers/adminController.js:175-184 | removes only the submission with the given id |
| AdminController.NewWinner | src/controllers/adminController.js:188-196 | a falsy competition id is stored as NULL, a truthy one as given; the media path is `/uploads/winners/<filename>` with a file and NULL without |
| AdminController.WinnerBindsDefined | src/controllers/adminController.js:191-196 | the insert is refused exactly when the name, school or highlight is undefined |
| AdminController.AddWinner | src/controllers/adminController.js:186-202 | inserts the winner under the next id and answers 201 "Winner added.", or answers 500 with nothing changed |
| AdminController.RemoveWinner | src/controllers/adminController.js:204-213 | removes only the winner with the given id |
| AdminController.MergeSiteSettings | src/controllers/adminController.js:233-253 | the two texts follow the `??` merge, the features document changes only when truthy, the logo only with a file |
| AdminController.BuildSettingsParams | src/controllers/adminController.js:233-244 | the pushed `params` hold the three defaulted values and the logo path only with a file; no bind is ever undefined |
| AdminController.SettingsBinding | src/controllers/adminController.js:240-253 | the SET list run over the pushed `params` is exactly the settings merge |
| AdminController.UpdateSettingsRow | src/controllers/adminController.js:253 | `WHERE id = 1` changes only row 1 and keeps every other row |
| AdminController.UpdateSiteSettings | src/controllers/adminController.js:231-261 | row 1 becomes its merge, nothing else changes; answers "Site settings updated." |
| AdminController.EmptySettingsFormKeepsSettings | src/controllers/adminController.js:233-253 | an empty settings form leaves the settings unchanged |
| AdminController.GetSiteSettings | src/controllers/adminController.js:263-271 | returns settings row 1, and nothing when it is missing |
| AdminController.SettingsReadBack | src/controllers/adminController.js:231-271 | after an update, reading the settings gives the merged row |
| AdminController.ToggledFeatures | src/controllers/adminController.js:275-281 | MySQL refuses the path exactly when the key text is not a dotted identifier path; otherwise the flag reads back where its parents exist, and the document is unchanged where they do not |
| AdminController.ToggleFeature | src/controllers/adminController.js:273-287 | sets `features.<key>` to `enabled === 'true' \|\| enabled === true` in row 1 only and answers 200; a rejected path answers 500 with nothing changed |
| AdminController.ToggleSingleFlag | src/controllers/adminController.js:275-281 | on an object document, a plain key gets the boolean and every other key is kept |
| JsonPath.JoinSplit | src/controllers/adminController.js:281 | splitting the path text at dots and joining it back gives the text |
| JsonPath.MemberPath | src/controllers/adminController.js:281 | a path is accepted exactly when every dotted member is an identifier, and its members join back to the key |
| JsonPath.GetAfterSet | src/controllers/adminController.js:277-281 | after `JSON_SET`, the path reads the value when its parents exist; otherwise the document is unchanged |
| JsonPath.SetPathKeepsOtherMembers | src/controllers/adminController.js:277-281 | setting one member leaves every other top-level member unchanged |
| AuthController.CreateResetRecord | src/controllers/authController.js:9-22 | upserts the user's single record with the token's hash and an expiry 30 minutes after now; returns the token |
| AuthController.FreshRecordIsLiveForThirtyMinutes | src/controllers/authController.js:12 | a fresh record is live exactly until 1800000 ms after it was issued |
| AuthController.SignupRejection | src/controllers/authController.js:28-33 | a missing name, email or password is 400, checked before a registered email, which is 409; nothing else is rejected |
| AuthController.NewStudent | src/controllers/authController.js:36-40 | the new row has role student, the given name, email and hash, and a falsy school or affiliate school stored as NULL |
| AuthController.Signup | src/controllers/authController.js:25-62 | a rejection changes nothing; a password that is not a string (bcrypt refuses it) answers 500 and changes nothing; otherwise exactly one student is inserted under the next id, emails stay unique and the admin count is unchanged; with a JWT secret the claims carry role student and the new id and the answer is 201, without one token signing fails after the insert and the answer is 500 with no claims |
| AuthController.Login | src/controllers/authController.js:65-96 | changes nothing; an unknown email and a wrong password give the same 401 "Invalid credentials."; a known email with a non-string password answers 500; for a string password, success holds exactly when a JWT secret is set and a user with that email passes the password check, and the claims are that stored user's id, role, name and email; a matching login without a JWT secret answers 500 |
| AuthController.AdminRejection | src/controllers/authController.js:108-122 | checks in order: missing field 400, unset or wrong invite code 403, registered email 409, five or more admins 403; nothing else is rejected |
| AuthController.NewAdmin | src/controllers/authController.js:125-129 | the new row has role admin, the given name, email and hash, and NULL for the rest |
| AuthController.CreateAdminAccount | src/controllers/authController.js:105-139 | a rejection, or a non-string password past every check (bcrypt refuses it, 500), changes nothing; otherwise one admin is inserted and the count rises by one to at most 5; from a count of at most 5 the count never exceeds 5 |
| AuthController.RequestPasswordReset | src/controllers/authController.js:142-193 | a missing email is 400; only a user of the requested role gets a record, otherwise 404 with nothing written; a mail failure answers 500 after the record was written |
| AuthController.RequestUserPasswordReset | src/controllers/authController.js:142-166 | no email gives 400 and an email with no student 404 "Student not found.", both changing nothing; for a student, that student's record becomes the token's hash with a 30-minute expiry, and the answer is "Password reset link sent." or, when the mail fails, 500 |
| AuthController.RequestAdminPasswordReset | src/controllers/authController.js:169-193 | no email gives 400 and an email with no admin 404 "Admin account not found.", both changing nothing; for an admin, that admin's record becomes the token's hash with a 30-minute expiry, and the answer is "Admin reset link sent." or, when the mail fails, 500 |
| AuthController.ValidHolders | src/controllers/authController.js:202-207 | a user holds the token exactly when the user exists and their record has this hash and expires after now |
| AuthController.ResetPassword | src/controllers/authController.js:196-220 | missing fields give 400; a non-string token 500; no live record 400 "Invalid or expired token."; a live record with a non-string password 500; each changes nothing. Success holds exactly when a live record exists and the password is a string, and then updates only that user's hash and deletes that user's record |
| AuthController.TokenWorksOnce | src/controllers/authController.js:212-213 | after its holder's record is deleted, the same token finds no live record |
| UserController.FindCompetition | src/controllers/userController.js:95 | finds a row exactly when the bound value selects an existing id, and returns that row |
| UserController.UpdateKeepsEmailsUnique | src/controllers/userController.js:153-174 | a user update that keeps every email keeps emails unique |
| UserController.UpdateKeepsAdminCount | src/controllers/userController.js:153-159 | a user update that keeps every role keeps the admin count |
| UserController.NewSubmission | src/controllers/userController.js:93-101 | the new submission has the given student and competition, the media path `/uploads/submissions/<filename>` with a file and NULL without, falsy notes as NULL and the default status |
| UserController.CreateSubmission | src/controllers/userController.js:89-112 | an undefined competition id is 500 and an unknown competition is 404, both with no insert; otherwise one row is inserted and the answer is 201 with the competition's WhatsApp link |
| UserController.MergeProfile | src/controllers/userController.js:151-159 | name, school and affiliate school keep their value when the input is falsy and take it otherwise; email, role, hash and picture never change |
| UserController.EmptyProfileFormKeepsUser | src/controllers/userController.js:159 | a profile form of empty strings, or of other falsy values, changes nothing |
| UserController.UpdateProfile | src/controllers/userController.js:148-167 | only the session user's row changes, to its merge; emails stay unique and the admin count is unchanged |
| UserController.UploadProfilePicture | src/controllers/userController.js:169-180 | no file answers 400 with no update; otherwise only the session user's picture changes and the path is returned |
| UserController.OrderRejection | src/controllers/userController.js:187-197 | an unknown competition is 404 and a free one 400 "Competition is free.", both before the gateway check; a paid competition with no configured gateway is 500 "Payment service not configured properly."; the order goes out exactly for a paid competition with a configured gateway |
| UserController.GatewayFailure | src/controllers/userController.js:213-219 | a gateway failure always answers 500, with the credentials message exactly for status code 401 |
| UserController.CreatePaymentOrder | src/controllers/userController.js:182-224 | a rejection makes no gateway call and inserts nothing; the request sends `round(fee*100)`, INR and the receipt of that competition at that time; a gateway error inserts nothing and answers by its status code; a created order with a numeric amount and a known student always inserts exactly one pending row with the order id, student, competition and amount and answers 200 with them; a NaN amount or an undefined student answers 500 and inserts nothing |
| UserController.RecordOrder | src/controllers/userController.js:200-219 | once the gateway has answered: an error answers by its status code; a created order is stored as one pending row under the next id and answers 200 exactly when the amount is a number and the student id is defined, otherwise 500 with nothing stored |
| UserController.VerifiedStatus | src/controllers/userController.js:233-237 | the status is paid exactly when the signature equals the HMAC of `<orderId>\|<paymentId>`, and otherwise failed |
| UserController.MarkPayments | src/controllers/userController.js:239-243 | every row of the given order gets the payment id, signature and status; every other row is unchanged |
| UserController.VerifyPayment | src/controllers/userController.js:226-253 | a missing detail answers 400 with nothing changed; otherwise every row of the order is marked, whatever its prior status, and the answer is 200 exactly when the status is paid |
| UserController.PaidRowCanBeOverwritten | src/controllers/userController.js:239-243 | a later call with a bad signature rewrites a paid row to failed |

## Left out

- Session population: no code in the core sets `req.session`, so the session is an input to the guards and handlers.
- Logout and the read-only listing and dashboard handlers are not modelled: the joins, `ORDER BY` and `LIMIT` are done by the database. Only the public listing is modelled, because of its finding. `getSiteSettings` is modelled.
- UserRoutes.PublicCompetitions: gives the set of listed ids, not the order by start date.
- Foreign calls are parameters and are not modelled as algorithms: bcrypt hashing and comparison (only their refusal of a password that is not a string is modelled), SHA-256, HMAC-SHA256, JWT signing (only whether `JWT_SECRET` is set is modelled, as `jwtSecretSet`, since signing throws without it), `crypto.randomBytes`, uuid, the Razorpay client (its reply to the order sent is a parameter, `None` when it is not configured) and `sendMail`. The cookie and the signed token are represented by their claims.
- The clock is a parameter in milliseconds. The second precision of MySQL `DATETIME` is not modelled.
- Floating point is not modelled. Numbers are integers, and `Math.round(Number(fee) * 100)` is exact for digit strings with at most two decimals, which in JavaScript holds while the result stays below 2^53 paise; the unbounded integers here do not model that bound. Other strings are treated as `NaN`.
- Js.Hundredths: does not model fees with more than two decimals, signs, exponents or surrounding spaces, which JavaScript would still convert.
- Js.AsId: does not model MySQL's lenient conversion of strings such as `'5abc'` or `' 5'` to numbers in `WHERE id = ?`. Such strings select no row here.
- AdminController.ToggleFeature: stores the JavaScript boolean in the features document, whereas the driver binds a boolean as 1 or 0, so `JSON_SET` writes the number 1 or 0.
- Column type coercion is not modelled. A column holds the value that was bound, and the payment amount is kept in paise rather than as the DECIMAL rupee value `amount / 100`.
- Database errors other than the driver's refusal of an `undefined` bind value are not modelled. This includes a lost connection, a strict-mode type error and foreign-key violations.
- UserController.MarkPayments: matches an order id only when it is bound as the same string. The numeric comparison MySQL applies to a number bound against a VARCHAR is not modelled.
- AdminController.ToggledFeatures: treats path members that are quoted, array-indexed, wildcarded or non-ASCII as rejected paths. Only dotted ASCII identifier members are modelled.
- AdminController.MergeSiteSettings: keeps the features document itself rather than its `JSON.stringify` text.
- Email and status comparisons use exact string equality, not MySQL's case-insensitive collation.
- Concurrency is not modelled: races between the gateway call and the insert, or between concurrent verifications, are out of scope.
- Multer's handling of several files or non-file fields is not modelled. Only `.single(field)` with zero or one file part is.

## Findings

| source | as written | input that shows it | evidently intended | confidence | as-written member | corrected member |
|---|---|---|---|---|---|---|
| src/routes/userRoutes.js:42-53 | the `/competitions-public` handler calls `query`, which the file never imports, so the call throws inside `try` and the route always answers 500 "Unable to fetch competitions." | any `GET /competitions-public`, for example with one competition whose status is `'active'` | list the competitions whose status is `'active'` | high (not executed) | UserRoutes.PublicCompetitionsAlwaysFails | UserRoutes.PublicCompetitionsCorrected |
