# Job application back end: a Dafny model

This project models the core of a job application back end written in TypeScript on Express and Prisma. It covers:

- listing job roles and showing one job role;
- applicants applying to a role with a CV that goes to object storage;
- admins listing the applications for a role, downloading a CV, and hiring or rejecting an applicant;
- logging in, registering, and checking a bearer token.

How the model is built:

- **Application store.** The store of applications and job roles is the class `ApplicationStore.ApplicationDao`, which holds maps. Each of its methods is proved against a pure function on the value `Tables`.
- **Hire and reject.** The service's guarded sequences are the methods `ApplicationService.ApplicationService.HireApplicant` and `RejectApplicant`. They are proved equal to the pure functions `Hire` and `Reject`. Lemmas over sequences of decisions then show three things:
  - Hired and Rejected are final.
  - No hire drives a role's open-position count below zero.
  - For every role, hired plus open positions never changes.
- **Handlers.** Controllers, the apply route and the CV download endpoint are pure functions from the request to a `Http.Reply` (a status and a body). The service they call is a function parameter, so "the service is not called" becomes "the reply does not depend on that parameter".
- **JavaScript semantics.** The module `Js` models the JavaScript behaviour the handlers rely on: `trim`, `toLowerCase`, `startsWith`, `Number.parseInt(s, 10)`, `Number(...)`, `String(...)` and truthiness.
- **Opaque outside code.** Hashing, password verification, token signing and verification, the email check, time, UUIDs and the object store's transport are all parameters.

## Model

| member | source | states |
|---|---|---|
| `Js.Trim` | src/services/AuthService.ts:22 | `trim` returns a slice of its input with only whitespace cut from either side, leaving no whitespace at either end; the result is empty exactly when the input is all whitespace |
| `Js.TrimOfTrimmed` | src/services/AuthService.ts:22 | a string without whitespace at its ends is its own trim |
| `Js.ToLowerCaseIdempotent` | src/services/AuthService.ts:22 | lower-casing twice is lower-casing once |
| `Js.ParseInt` | src/controllers/JobRoleController.ts:46-50 | `parseInt` is NaN exactly when, after leading whitespace and an optional sign, no digit follows |
| `Js.ParseIntRejectsLetter` | src/controllers/ApplicationController.ts:41-45 | text that starts with a letter parses to NaN |
| `Js.ParseIntIgnoresTrailing` | src/controllers/JobRoleController.ts:46 | digits followed by a non-digit read as the digits alone |
| `Js.ParseIntOfIntToString` | src/controllers/JobRoleController.ts:46 | `parseInt` reads back the printed form of every integer |
| `Js.StringToNumberOfIntToString` | src/middleware/authMiddleware.ts:47 | `Number` reads back the printed form of every integer |
| `Js.DigitsValueOfNatToString` | src/middleware/authMiddleware.ts:47 | the digits of a natural number evaluate back to it (by induction) |
| `UserRole.IsValidUserRole` | src/enums/UserRole.ts:6-8 | true exactly for "ADMIN" and "APPLICANT", the values of the enum's members |
| `UserRole.FromValue` | src/enums/UserRole.ts:6-8 | the member named by a valid value, and none for any other value |
| `UserRole.FromValueOfValue` | src/enums/UserRole.ts:1-4 | each member is recovered from its value |
| `UserRole.NoCaseFoldingNoTrimming` | src/enums/UserRole.ts:7 | "admin", "Admin", "ADMIN ", " ADMIN", "" and "   " are not valid |
| `Password.ValidatePassword` | src/utils/password.ts:19-37 | accepted exactly when the password has 8 or more chars with an uppercase letter, a lowercase letter and a special character; otherwise the message of the first failing rule, in that order |
| `Password.RejectionMessages` | src/utils/password.ts:19-37 | every rejection carries one of the four messages |
| `Password.NotSpecial` | src/utils/password.ts:6 | space, backquote and tilde are outside the special-character class |
| `Password.Examples` | src/utils/password.ts:19-37 | "Short1!" is too short, "alllowercase1!" lacks an uppercase letter, "GoodPass1!" and the digit-free "GoodPass!" are accepted |
| `Js.DatePart` | src/mappers/JobRoleMapper.ts:15 | the date is the prefix of the ISO string before its first 'T' |
| `JobRoleMapper.MapperRoundTrip` | src/mappers/JobRoleMapper.ts:4-33 | the mapper copies every field and only cuts the time off the closing date: the argument can be rebuilt from the response and that time |
| `JobRoleMapper.MapJobRole` | src/mappers/JobRoleMapper.ts:11-32 | the closing date loses only its time of day (date plus dropped time is the original, with no 'T' left); the capability, band and status names land in the nested records; `MapperRoundTrip` inverts it |
| `JobRoleMapper.DatePartOfTimestamp` | src/mappers/JobRoleMapper.ts:15 | the closing date of `date + "T" + time` is `date` |
| `JobRoleMapper.DatePartExample` | src/mappers/JobRoleMapper.ts:15 | "2030-01-15T00:00:00.000Z" gives "2030-01-15" |
| `JobRoleService.MapperArgument` | src/services/JobRoleService.ts:15-19 | the mapper gets the row with its capability and band names, and no status name |
| `JobRoleService.MapAll` | src/services/JobRoleService.ts:12-21 | one response per row, in order, each built from its own row |
| `JobRoleService.GetJobRoleById` | src/services/JobRoleService.ts:34-44 | null exactly for a missing row; otherwise the mapped row |
| `JobRoleService.ResponseFields` | src/services/JobRoleService.ts:23-32 | each listed response carries its row's id, name, location, description, responsibilities, SharePoint URL and open positions, the capability and band ids with their names, the row's calendar date, and no status name |
| `JobRoleService.ByIdAgreesWithList` | src/services/JobRoleService.ts:39-43 | the single-row lookup answers what the list holds for that row |
| `JobRoleController.GetJobRoles` | src/controllers/JobRoleController.ts:11-26 | 500 on a throw; 404 for a null or empty list; 200 with the list exactly otherwise |
| `JobRoleController.GetOpenJobRoles` | src/controllers/JobRoleController.ts:28-43 | 500 on a throw; 204 with no body for a null or empty list; 200 with the list exactly otherwise |
| `JobRoleController.GetJobRoleById` | src/controllers/JobRoleController.ts:45-64 | 400 for an id that does not parse; otherwise the service is asked for the parsed id and gives 500, 404 or 200 |
| `JobRoleController.InvalidIdExamples` | src/controllers/JobRoleController.ts:48-50 | "invalid" and "abc123" give 400 whatever the service does |
| `JobRoleController.TrailingTextIgnored` | src/controllers/JobRoleController.ts:46 | "12abc" is answered as "12" |
| `JobRoleController.PrintedIdReachesService` | src/controllers/JobRoleController.ts:51-57 | the printed form of an id reaches the service as that id |
| `ApplicationStore.IdsOfHasOnlyRowIds` | src/dao/ApplicationDao.ts:10-22 | every id collected from a list of rows is the id of one of them |
| `ApplicationStore.WithUser` | src/dao/ApplicationDao.ts:13-20 | the row joined with its user's id and email |
| `ApplicationStore.Detail` | src/dao/ApplicationDao.ts:24-37 | nothing exactly for an absent id; otherwise the row joined with its user and its own job role |
| `ApplicationStore.SetStatus` | src/dao/ApplicationDao.ts:39-55 | not found exactly for an absent id, with nothing changed; otherwise only that row's status changes, and the updated row is returned with its user; the store stays well formed |
| `ApplicationStore.Decrement` | src/dao/ApplicationDao.ts:57-66 | not found exactly for an absent role; otherwise that role's count drops by exactly one, with no floor, and nothing else changes |
| `ApplicationStore.Insert` | src/services/ApplicationService.ts:46-51 | a NaN id is refused as an invalid argument; then a taken (user, role) pair by the unique-key error; then an unknown user or role by the foreign-key error; a new row gets the next id; a refused insert changes nothing |
| `ApplicationStore.SecondApplicationRefused` | src/services/ApplicationService.ts:46-51 | once a pair is stored, a second insert for it is refused and changes nothing |
| `ApplicationStore.DecrementBelowZero` | src/dao/ApplicationDao.ts:61-63 | decrementing a role with no open positions leaves -1 |
| `ApplicationStore.ApplicationDao.GetApplicationsByJobRoleId` | src/dao/ApplicationDao.ts:10-22 | exactly the role's applications, each with its user, with no id twice |
| `ApplicationStore.ApplicationDao.GetApplicationById` | src/dao/ApplicationDao.ts:24-37 | returns `Detail` of the current store |
| `ApplicationStore.ApplicationDao.UpdateApplicationStatus` | src/dao/ApplicationDao.ts:39-55 | result and new state are those of `SetStatus` |
| `ApplicationStore.ApplicationDao.DecrementOpenPositions` | src/dao/ApplicationDao.ts:57-66 | result and new state are those of `Decrement` |
| `ApplicationStore.ApplicationDao.CreateApplication` | src/services/ApplicationService.ts:46-51 | result and new state are those of `Insert` |
| `FileStorage.ObjectKey` | src/client/S3FileStorageClient.ts:33-34 | `applications/<date>-<uuid>-<name>`: the key starts with "applications/" and ends with the file's original name |
| `FileStorage.FreshUuidFreshKey` | src/client/S3FileStorageClient.ts:34 | uploads on the same day with different UUIDs get different keys |
| `FileStorage.FileStorageClient.UploadFile` | src/client/S3FileStorageClient.ts:32-50 | on a send failure, the wrapped error and an unchanged bucket; otherwise the key is returned and the file is stored under it |
| `ApplicationService.Hire` | src/services/ApplicationService.ts:69-97 | hiring keeps the store well formed |
| `ApplicationService.ToResponse` | src/services/ApplicationService.ts:58-65 | the response carries the user's id and email, and the application row can be read back from it when the joined user is the row's own |
| `ApplicationService.HireNotFound` | src/services/ApplicationService.ts:70-73 | an absent id is ApplicationNotFoundError, with nothing changed |
| `ApplicationService.HireWrongStatus` | src/services/ApplicationService.ts:74-78 | a row that is not InProgress is InvalidApplicationStatusError, whatever the count; nothing changes |
| `ApplicationService.HireNoPositions` | src/services/ApplicationService.ts:79-83 | an InProgress row whose role has no open position is NoOpenPositionsError; nothing changes |
| `ApplicationService.HireSucceeds` | src/services/ApplicationService.ts:84-96 | past the guards: the row becomes Hired, only its own role's count drops by one, and the response carries the updated row and its user |
| `ApplicationService.HireFailsOnlyOnGuards` | src/services/ApplicationService.ts:69-97 | hiring fails exactly when a guard does, and a failed hire changes nothing |
| `ApplicationService.HireKeepsPositionsNonNegative` | src/services/ApplicationService.ts:79-88 | the guard before the unguarded decrement keeps all counts non-negative |
| `ApplicationService.Reject` | src/services/ApplicationService.ts:100-122 | rejecting keeps the store well formed |
| `ApplicationService.RejectNotFound` | src/services/ApplicationService.ts:101-104 | an absent id is ApplicationNotFoundError, with nothing changed |
| `ApplicationService.RejectWrongStatus` | src/services/ApplicationService.ts:105-109 | a row that is not InProgress is InvalidApplicationStatusError; nothing changes |
| `ApplicationService.RejectSucceeds` | src/services/ApplicationService.ts:110-121 | past the guard, the row becomes Rejected whatever its role's count, and nothing else changes |
| `ApplicationService.RejectKeepsPositions` | src/services/ApplicationService.ts:100-122 | rejecting never touches a position count |
| `ApplicationService.Run` | src/services/ApplicationService.ts:69-122 | any sequence of hires and rejects keeps the store well formed |
| `ApplicationService.DecisionKeepsTerminal` | src/services/ApplicationService.ts:74-78 | a decision never changes a Hired or Rejected row |
| `ApplicationService.TerminalIsFinal` | src/services/ApplicationService.ts:105-109 | after any sequence of decisions, a Hired or Rejected row is unchanged, and hiring or rejecting it again fails with InvalidApplicationStatusError and changes nothing |
| `ApplicationService.PositionsStayNonNegative` | src/services/ApplicationService.ts:79-88 | non-negative counts stay non-negative through any sequence of decisions |
| `ApplicationService.DecisionConservesCapacity` | src/services/ApplicationService.ts:84-88 | one decision keeps hired plus open positions, for every role |
| `ApplicationService.CapacityConserved` | src/services/ApplicationService.ts:68-97 | for every role, hired plus open positions is the same after any sequence of decisions |
| `ApplicationService.ResolveId` | src/services/ApplicationService.ts:47-48 | a text id is `parseInt` of the text (NaN exactly when that fails), a number passes unchanged |
| `ApplicationService.Create` | src/services/ApplicationService.ts:38-53 | a CV is uploaded exactly when storage is configured, a file is given and the upload succeeds, under the file's object key; success needs that upload and stores its key as `cvUrl`; a failure leaves the store unchanged; partners `CreateRejectsBeforeUpload`, `CreatedRowIsInProgress` and `DuplicateRefusedAfterUpload` |
| `ApplicationService.CreateRejectsBeforeUpload` | src/services/ApplicationService.ts:39-44 | without a storage client or a file, the matching error is thrown, nothing is uploaded and nothing is inserted |
| `ApplicationService.CreatedRowIsInProgress` | src/services/ApplicationService.ts:45-52 | a successful create adds exactly one new row, InProgress, with the uploaded key as `cvUrl` and the parsed ids |
| `ApplicationService.CreateSeesResolvedIds` | src/services/ApplicationService.ts:47-48 | create sees its ids only through `parseInt` |
| `ApplicationService.DuplicateRefusedAfterUpload` | src/services/ApplicationService.ts:45-51 | a second application for a pair uploads its CV and is then refused by the unique key with the client's message |
| `ApplicationService.ApplicationService.CreateApplication` | src/services/ApplicationService.ts:38-53 | result and store are those of `Create`; the bucket gains the uploaded file exactly when an upload happened |
| `ApplicationService.ApplicationService.GetApplicationsByJobRoleId` | src/services/ApplicationService.ts:56-66 | one response per application of the role, with its user's id and email, with no id twice |
| `ApplicationService.ApplicationService.HireApplicant` | src/services/ApplicationService.ts:69-97 | result and new store are those of `Hire` |
| `ApplicationService.ApplicationService.RejectApplicant` | src/services/ApplicationService.ts:100-122 | result and new store are those of `Reject` |
| `ApplicationController.GetApplicationsByJobRoleId` | src/controllers/ApplicationController.ts:16-38 | 400 for an unparsable id; 500 on a throw; 404 for an empty list; 200 with the list exactly when it is non-empty |
| `ApplicationController.HireFailure` | src/controllers/ApplicationController.ts:50-62 | 404 exactly for not found, 409 exactly for a status or positions conflict, each with the error's message; 500 otherwise |
| `ApplicationController.RejectFailure` | src/controllers/ApplicationController.ts:76-85 | 404 exactly for not found, 409 exactly for a status conflict; everything else, a positions error included, is 500 |
| `ApplicationController.HireApplicant` | src/controllers/ApplicationController.ts:40-63 | 400 for an unparsable id; otherwise 200 with the result, or the hire failure reply |
| `ApplicationController.RejectApplicant` | src/controllers/ApplicationController.ts:65-86 | 400 for an unparsable id; otherwise 200 with the result, or the reject failure reply |
| `ApplicationController.InvalidIdNeverReachesService` | src/controllers/ApplicationController.ts:43-45 | an id that `parseInt` reads as NaN gets 400 from hire and reject whatever the service would do |
| `ApplicationController.LetterIdIs400` | src/controllers/ApplicationController.ts:43-45 | an id starting with a letter of either case gets 400 from hire and reject |
| `ApplicationController.NoPositionsOnlyKnownToHire` | src/controllers/ApplicationController.ts:57-59 | a positions error is 409 when hiring and 500 when rejecting |
| `ApplicationRoutes.ErrorMessage` | src/routes/ApplicationRoutes.ts:43-44 | an Error's own message, or "Failed to create application" for anything else |
| `ApplicationRoutes.FailureReply` | src/routes/ApplicationRoutes.ts:41-55 | 409 exactly for "You have already applied to this job role", 400 exactly for "CV file is required", 500 otherwise, always with the message |
| `ApplicationRoutes.Apply` | src/routes/ApplicationRoutes.ts:23-56 | 400 for an absent, 0 or NaN user id, without calling the service; otherwise 200 with the result, or the failure reply |
| `ApplicationRoutes.FalsyUserNeverReachesService` | src/routes/ApplicationRoutes.ts:24-28 | absent, 0 and NaN user ids give the same 400 whatever the service does |
| `ApplicationRoutes.NonErrorIs500` | src/routes/ApplicationRoutes.ts:43-54 | a thrown non-Error is 500 "Failed to create application" |
| `ApplicationRoutes.MissingCvIs400` | src/routes/ApplicationRoutes.ts:50-52 | with the real service, a missing CV is 400 |
| `ApplicationRoutes.DuplicateApplicationIs500` | src/routes/ApplicationRoutes.ts:46-54 | with the real service, a repeated application is 500 with the store's message; the 409 branch is unreachable |
| `ApplicationRoutes.DuplicateReachesStore` | src/routes/ApplicationRoutes.ts:34-38 | the repeated application, with its role id as path text, fails in the store |
| `ApplicationRoutes.UniqueViolationIs500` | src/routes/ApplicationRoutes.ts:46-54 | the store's unique-key message is neither of the two special messages |
| `CvDownload.HostLength` | src/tests/integration/application-cv.integration.test.ts:47 | the host runs up to the first '/', '?' or '#' |
| `CvDownload.Pathname` | src/tests/integration/application-cv.integration.test.ts:46-52 | a parsed pathname is non-empty and starts with "/" |
| `CvDownload.KeyOf` | src/tests/integration/application-cv.integration.test.ts:45-55 | a non-URL is its own key; a URL's key is its pathname without the "/", or the URL itself when that is empty or unparsable; a non-empty value never gives an empty key |
| `CvDownload.NormalizeCvKey` | src/tests/integration/application-cv.integration.test.ts:42-56 | a value that is not blank gives a non-empty key |
| `CvDownload.DownloadCv` | src/tests/integration/application-cv.integration.test.ts:15-73 | 400 for a missing id and for an unparsable one; 500 when the lookup fails; 404 "Application not found" when there is no such application; only 302 replies redirect; every reply is 302, 400, 404 or 500 |
| `CvDownload.InvalidIdNeverLooksUp` | src/tests/integration/application-cv.integration.test.ts:24-28 | every id that `parseInt` reads as NaN gives 400 "Invalid applicationId" whatever the store holds |
| `CvDownload.LetterIdIsInvalid` | src/tests/integration/application-cv.integration.test.ts:24-28 | an id starting with a letter of either case gives 400 "Invalid applicationId" |
| `CvDownload.BlankCvNotFound` | src/tests/integration/application-cv.integration.test.ts:38-40 | for any id that parses, a found application with a null or blank `cvUrl` is 404 "CV not found" |
| `CvDownload.PlainKeyGoesToStorage` | src/tests/integration/application-cv.integration.test.ts:65-72 | for any id that parses, a stored key is trimmed and sent to storage; the reply redirects to its answer, or is 500 if it fails |
| `CvDownload.PathnameOf` | src/tests/integration/application-cv.integration.test.ts:47-48 | the pathname of scheme + host + path is the path |
| `CvDownload.HostLengthOf` | src/tests/integration/application-cv.integration.test.ts:47 | the host of host + path is the host (by induction) |
| `CvDownload.UrlNormalisesToPath` | src/tests/integration/application-cv.integration.test.ts:45-49 | an http(s) URL with a path gives the path without its "/" as the key |
| `CvDownload.HostOnlyUrlIsItsOwnKey` | src/tests/integration/application-cv.integration.test.ts:49 | a URL with nothing after its host keeps itself as the key |
| `CvDownload.NormalizeTrimmed` | src/tests/integration/application-cv.integration.test.ts:43 | a value without whitespace at its ends is normalised untrimmed |
| `CvDownload.UrlKeyRedirectsDirectly` | src/tests/integration/application-cv.integration.test.ts:58-63 | for any id that parses, a key that is still a URL is redirected to without asking storage |
| `AuthMiddleware.HeaderToken` | src/middleware/authMiddleware.ts:24-28 | a token exactly for a header starting with "Bearer ", and it is the rest of the header |
| `AuthMiddleware.SelectedToken` | src/middleware/authMiddleware.ts:22-33 | the header's token wins when non-empty; otherwise a non-empty cookie; a token is present exactly when one of them is |
| `AuthMiddleware.ExtractToken` | src/middleware/authMiddleware.ts:22-33 | the step-by-step extraction gives `SelectedToken` |
| `AuthMiddleware.Decide` | src/middleware/authMiddleware.ts:16-54 | 500 without a secret; 401 without a token; 401 "Invalid token format" when the token verifies to a string; the next handler runs exactly when the token verifies to a claims object |
| `AuthMiddleware.UserOf` | src/middleware/authMiddleware.ts:46-49 | a numeric `sub` is kept, a textual `sub` is read with `Number`, a textual email is kept; `SubClaimAsTextOrNumber` ties the two `sub` forms together |
| `AuthMiddleware.Authenticate` | src/middleware/authMiddleware.ts:11-55 | the outcome is `Decide`'s; on success the request's user is `{Number(sub), String(email)}`; otherwise it is untouched |
| `AuthMiddleware.SecretCheckedFirst` | src/middleware/authMiddleware.ts:16-20 | without a secret the reply is the same 500 whatever the request |
| `AuthMiddleware.HeaderBeatsCookie` | src/middleware/authMiddleware.ts:26-33 | "Bearer " with a non-empty token wins over any cookie |
| `AuthMiddleware.EmptyOrForeignHeaderFallsBack` | src/middleware/authMiddleware.ts:31-37 | a bare "Bearer " or another scheme falls back to the cookie; with none, 401 "No token provided" |
| `AuthMiddleware.RejectedTokenRefused` | src/middleware/authMiddleware.ts:52-54 | a token that fails verification is 401 "Invalid or expired token" |
| `AuthMiddleware.SubClaimAsTextOrNumber` | src/middleware/authMiddleware.ts:46-49 | a textual and a numeric `sub` give the same user |
| `AuthService.NormalizeEmail` | src/services/AuthService.ts:22 | the normal form is empty exactly for a blank email |
| `AuthService.NormalizeEmailIdempotent` | src/services/AuthService.ts:53 | normalising twice is normalising once |
| `AuthService.UserByEmail` | src/dao/AuthDao.ts:10-14 | the row under that email exactly when there is one |
| `AuthService.LoginOutcome` | src/services/AuthService.ts:18-50 | null for non-strings, a blank email or an empty password; throws only "JWT_SECRET is not set"; a token exactly for a known user whose password verifies, when a secret is set |
| `AuthService.LoginSignsClaims` | src/services/AuthService.ts:43-49 | the token is signed over the row's id, its normalised email, its role and "1h" |
| `AuthService.BadCredentialsBeatMissingSecret` | src/services/AuthService.ts:28-41 | bad credentials give null even when no secret is set |
| `AuthService.LoginNormalizesEmail` | src/services/AuthService.ts:22-28 | login sees the email only through its normal form |
| `AuthService.AddUser` | src/dao/AuthDao.ts:16-22 | one row under its email with the next id; the table stays well formed |
| `AuthService.Registration` | src/services/AuthService.ts:52-79 | a failure changes nothing; success adds exactly the row for the normalised email and the password's hash; success exactly when every check passes |
| `AuthService.RegisterErrors` | src/services/AuthService.ts:55-74 | the first failing check, in source order, gives the error and message |
| `AuthService.RegisterKeepsWellFormed` | src/services/AuthService.ts:77-78 | registration keeps the user table well formed |
| `AuthService.SecondRegistrationConflicts` | src/services/AuthService.ts:71-74 | registering the same email again, in any spelling, is ConflictError and changes nothing |
| `AuthService.LoginAfterRegister` | src/services/AuthService.ts:18-79 | after a registration, logging in with any spelling of the email and the same password gives a token for the new row |
| `AuthService.AuthDao.FindUserByEmail` | src/dao/AuthDao.ts:10-14 | returns `UserByEmail` of the table |
| `AuthService.AuthDao.CreateUser` | src/dao/AuthDao.ts:16-22 | the new table is `AddUser`'s |
| `AuthService.AuthService.Login` | src/services/AuthService.ts:18-50 | returns `LoginOutcome` over the current table |
| `AuthService.AuthService.Register` | src/services/AuthService.ts:52-79 | result and new table are those of `Registration` |
| `AuthController.Login` | src/controllers/AuthController.ts:11-29 | 400 for a falsy field, without asking the service; 500 on a throw; 401 for no token; 200 with `{token}` exactly when the service gives a token |
| `AuthController.Logout` | src/controllers/AuthController.ts:31-34 | always 204 with no body |
| `AuthController.MissingFieldNeverReachesService` | src/controllers/AuthController.ts:14-16 | a missing or empty field is 400 whatever the service does |
| `AuthController.BlankEmailIs401` | src/controllers/AuthController.ts:14-22 | with the real service, an email of spaces or a non-string email passes the 400 check and gets 401 |
| `AuthController.MissingSecretIs500` | src/controllers/AuthController.ts:25-28 | with the real service, good credentials and no secret give 500 "Login failed" |

## Left out

- The database, the object store, the HTTP server, argon2, the JWT library and the email validator are not modelled. The store is maps, upload writes to a map, and the rest are function parameters. `src/utils/email.ts` and the auth error classes are not part of this model.
- Concurrency: the hire's two writes are not in a transaction, so another request can run between them. The model runs each call to completion.
- Error texts of the database client and of storage (`DaoErrorMessage`) are representative strings, not the library's exact wording.
- The service calls `applicationDao.createApplication`, which `src/dao/ApplicationDao.ts` does not define. `ApplicationStore.Insert` models it as the database client's create, with its unique (user, role) key and foreign keys.
- The router builds `ApplicationService` with its two arguments swapped. Routers also call `authMiddleware` as a factory with a list of roles, although it is a plain handler. Module-level wiring is outside the model: the model uses the constructor's order and the handler form.
- `authMiddleware` checks no role and no claim beyond the payload shape. The role lists passed to it are ignored, as in the code.
- `register` is modelled as the code has it: it throws on every failure and returns nothing. The router wires an `AuthController.register`, which that controller does not define, so it is not modelled.
- `JobRoleService` never supplies `statusName`. The model keeps it absent, as in the code.
- The job-role DAO's queries (`getAllJobRoles`, `getAllOpenJobRoles`, `getJobRoleById`, including what "open" means) are not part of this model. Their rows are inputs.
- `findMany` order is unspecified. `ApplicationStore.ApplicationDao.GetApplicationsByJobRoleId` promises the set of rows and distinct ids, not an order.
- Strings are sequences of Unicode code points, not UTF-16 code units. `toLowerCase` maps the ASCII letters only. `parseInt` and `Number` are modelled on integers: no fractions, exponents, hex or Infinity.
- `JsValue` has one value for a plain object and none for arrays, so `Js.ToNumber` and `Js.ToJsString` do not give `Number([])` (0) or `String([1])` ("1"); a token claim or body field that is an array is not modelled.
- `CvDownload.Pathname`: URL parsing follows the host/path/query split only. Percent-encoding, dot segments, ports, credentials and the other rules of the WHATWG URL standard are left out.
- `CvDownload.NormalizeCvKey`: its contract states only that a non-blank value gives a non-empty key. `CvDownload.KeyOf` carries the full behaviour.
- A key in the bucket is overwritten on upload. Key collisions are excluded only for different, equal-length UUIDs on the same day (`FileStorage.FreshUuidFreshKey`).
- Date and time: the current time is an ISO string parameter. `toISOString` itself is not modelled.
- Logging (`console.error`) is left out.
