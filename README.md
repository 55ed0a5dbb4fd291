# HaidTracker backend: services, guards and handlers in Dafny

This project models the request-handling core of the HaidTracker backend. The backend is a
REST API that keeps users, menstrual cycles, symptoms, reminders and per-period analytics.
The model covers:

- the six services (`src/services/*`): account management, cycles, symptoms, reminders,
  analytics, and self-registration and login;
- the cycle, symptom and analytic controllers, which parse the path id, decide ownership and
  turn service outcomes into HTTP statuses;
- the two middlewares: token authentication and the role gate;
- `AppError`, the status-carrying error every service throws.

How the model is laid out:

- **The store.** The database is a generic class `Store.Table<T>` with a `map<int, T>` of rows
  and a `nextId` counter. `Find`, `Insert`, `Update` and `Delete` stand for Prisma's
  `findUnique`, `create`, `update` and `delete`. `Select` stands for `findMany` with a `where`
  and an `orderBy`. It is a loop over the ids, proved to return exactly the matching rows,
  sorted by the key.
- **Request bodies.** Body fields are JSON values (`Js.Value`: undefined, null, boolean, number,
  string, object). This lets the `typeof`, truthiness and `!== undefined` tests be stated
  exactly.
- **Path ids.** `Number(req.params.id)` is abstracted to `Js.Numeric`: NaN, an integer, or a
  number that is not an integer. A non-integer id reaches the store, and the store's exception
  becomes a 500.
- **Outcomes.** A service returns `Result<_, Failure>`. A `Failure` is one of:
  - an `AppError` (`Thrown`);
  - the plain `{ status, message }` object the authentication service throws (`Plain`);
  - an unclassified store or library exception, which every handler answers with 500 and its
    own fixed message.
- **Controllers and middleware.** These are methods that write a status and a body into an
  `Http.Response` object. The middlewares also fill in the request's `userId` and `userRole`.
- **Foreign code.** Date parsing, password hashing and comparison, and token signing and
  verification are function parameters.

Three table invariants are kept by every operation that writes the table:

- users have unique emails and only the roles "user" and "admin" (`UserService.ValidUsers`);
- symptom texts are stored non-empty and trimmed (`SymptomService.TrimmedSymptoms`);
- reminder titles are non-empty and trimmed, and descriptions are trimmed
  (`ReminderService.TidyReminders`).

Source behaviours the model pins down:

- **Different check orders.** The user service answers 403 before 404. The cycle and analytic
  services validate the body before they look the row up. The symptom service looks the row
  up first.
- **Self-registration as admin.** Registration accepts "admin" from anyone who asks for it
  (`AuthService.AssignedRole`).
- **Blank reminder descriptions.** A reminder description made only of whitespace is stored as
  the empty string rather than null, because the source tests truthiness before trimming
  (`ReminderService.NewReminderDefaults`).

## Model

| member | source | states |
|---|---|---|
| Errors.NewAppError | src/utils/AppError.ts:1-9 | the error's name is "AppError", its message is the argument, and its status is the one given, 500 when omitted |
| Http.Response.Reply | src/controllers/cycleController.ts:33-36 | `res.status(code).json(body)` leaves exactly that status and body on the response |
| Http.ReplyFailure | src/controllers/cycleController.ts:47-53 | a handler's catch block answers an AppError with its own status and message, and anything else with 500 and the handler's fallback message |
| Http.OnlyAppErrorsChooseStatus | src/controllers/cycleController.ts:47-53 | only an AppError can produce a status other than 500; a plain thrown object always becomes 500 with the fallback message |
| Js.IntegerOf | src/services/cycleService.ts:51-53 | a JSON number is a usable integer id exactly when it has no fractional part, and then it is that integer |
| Js.Trim | src/services/symptomService.ts:31-44 | `trim()` is empty exactly for all-whitespace strings and never begins or ends with whitespace |
| Js.TrimIsInfix | src/services/symptomService.ts:42-43 | what `trim()` keeps is one contiguous piece of the original string |
| Js.TrimIdempotent | src/services/reminderService.ts:45-46 | trimming a trimmed text changes nothing |
| Js.TrimmedIsFixedPoint | src/services/symptomService.ts:70-76 | a string is left unchanged by `trim()` exactly when it neither begins nor ends with whitespace, and every result of `trim()` is such a string |
| Js.Lower | src/services/cycleService.ts:134-139 | lower-casing keeps the length and maps each character through the ASCII case mapping |
| Js.Split | src/middleware/authMiddleware.ts:23 | `split(' ')` yields at least one part, no part contains the separator, and joining the parts back gives the original string |
| Js.SplitAfterPrefix | src/middleware/authMiddleware.ts:23 | a separator-free prefix followed by the separator becomes the first part, and the rest splits on its own |
| Js.SplitWithoutSeparator | src/middleware/authMiddleware.ts:23 | a string without the separator splits into itself alone |
| Store.Table.Find | src/services/cycleService.ts:24-27 | `findUnique` by id finds a row exactly when the id is stored, and returns that row |
| Store.Table.Insert | src/services/cycleService.ts:64-71 | `create` stores the record under a fresh id and changes nothing else |
| Store.Table.Update | src/services/cycleService.ts:107-110 | `update` replaces exactly the one row |
| Store.Table.Delete | src/services/cycleService.ts:121 | `delete` removes exactly the one row and returns it |
| Store.Table.Select | src/services/cycleService.ts:14-17 | `findMany({ where, orderBy })` returns every stored row that matches, each once, only those, sorted by the key |
| Store.InsertSorted | src/services/cycleService.ts:148-151 | inserting a row into an ordered listing keeps it ordered and duplicate-free and adds exactly that row |
| Store.SelectionUnderSameFilter | src/services/cycleService.ts:11-12 | a correct listing for one `where` filter is also correct for any filter that accepts the same rows, so the admin and owner listings can be stated with the controller's own filter |
| UserService.EmailShapeMatchesRegex | src/services/userService.ts:8-10 | the executable email check holds exactly when some substring matches `\S+@\S+\.\S+`, in both directions |
| UserService.NoSpaceInSlice | src/services/userService.ts:9 | a run without whitespace in a substring is the same run in the whole string |
| UserService.WitnessInEmailLanguage | src/services/userService.ts:9 | an `@` and a later `.` with non-whitespace around them delimit a regex match |
| UserService.EmailShapeGivesMatch | src/services/userService.ts:9 | an accepted email contains a regex match |
| UserService.MatchGivesEmailShape | src/services/userService.ts:9 | a string with a regex match is accepted |
| UserService.MatchInSliceGivesEmailShape | src/services/userService.ts:9 | a match inside a substring places the `@` and the `.` where the check looks for them |
| UserService.FindByEmail | src/services/userService.ts:34 | the lookup by email finds a user exactly when one holds that email, and returns that user |
| UserService.FoundByEmailIsOther | src/services/userService.ts:94-97 | with unique emails, another user holds the email exactly when the user found by it has a different id |
| UserService.CreateUser | src/services/userService.ts:17-45 | a non-admin requester gets 403 before any check; then a bad email 400, a bad password 400, a role other than user/admin 400, and a stored email 409, in that order; on success one row is added with a hashed password and the role defaulting to "user"; unique emails are kept |
| UserService.GetUserById | src/services/userService.ts:48-66 | NaN id 400, then 403 for a non-admin asking about someone else (before any lookup, so never 404), then 404; success returns the summary |
| UserService.DeleteUser | src/services/userService.ts:131-155 | the same 400, 403, 404 order; success removes exactly that row, including an admin's own |
| UserService.GetProfile | src/services/userService.ts:158-168 | the user's own summary, or 404 |
| UserService.GetAllUsers | src/services/userService.ts:205-216 | 403 exactly for non-admins; otherwise every user once, by ascending id |
| UserService.Summaries | src/services/userService.ts:210-213 | the `select` projection keeps the order and length of the listing |
| UserService.ListingByAscendingId | src/services/userService.ts:210-213 | the projected listing names every user once by ascending id |
| UserService.UpdateCredentials | src/services/userService.ts:90-110 | a supplied email must be valid (400) and not held by another user (409), but one's own email is accepted; a supplied password must be valid (400); 409 comes only from an email another user holds, and every failure is a 400 or that 409; only the supplied credentials change |
| UserService.UpdateUser | src/services/userService.ts:69-128 | NaN 400, 403 for a non-admin on someone else, 404; then, for a stored target, an invalid email 400, an email another user holds 409 (and 409 only then), a short password 400; then a role from a non-admin 403 (even on themselves) and a role outside user/admin 400; success writes exactly the supplied fields to that row and keeps unique emails |
| UserService.ApplyUserUpdateTouchesSuppliedOnly | src/services/userService.ts:88-120 | an absent field keeps its value, a supplied password is stored hashed, and an update with no fields changes nothing |
| UserService.UpdateProfile | src/services/userService.ts:171-202 | an invalid email 400, an email another user holds 409 (and 409 only then), then a short password 400; success writes the supplied email, name and password, and the role never changes |
| UserService.OwnEmailNotTakenByOther | src/services/userService.ts:94-97 | re-submitting one's own email never counts as taken |
| UserService.RemovePreservesValidUsers | src/services/userService.ts:153 | deleting a user keeps emails unique and roles valid |
| UserService.UpdatePreservesValidUsers | src/services/userService.ts:122-126 | writing a user whose email no one else holds, with a valid role, keeps the table invariant |
| CycleService.GetAllCycles | src/services/cycleService.ts:10-18 | an admin gets every cycle, anyone else exactly their own, latest start first |
| CycleService.GetAllCyclesShowsOwnOnly | src/services/cycleService.ts:10-18 | no other user's cycle reaches a non-admin, every visible cycle is listed, and start dates descend |
| CycleService.GetCycle | src/services/cycleService.ts:20-29 | NaN 400, absent 404, otherwise the stored row unchanged |
| CycleService.CreateCycleEntry | src/services/cycleService.ts:31-72 | a missing or unparsable start date 400, a truthy unparsable end date 400, a truthy non-string note 400; the owner is the body's `userId` exactly when an admin supplies a number, else the requester; an admin naming another user who does not exist gets 404; every failure leaves the table unchanged; every failure is a 400, a 404 or a store failure |
| CycleService.NewCycle | src/services/cycleService.ts:64-71 | the created cycle belongs to the effective owner, starts on the parsed start date, has no end date exactly when the end date given is falsy (and the parsed one otherwise), and keeps a note exactly when a string was given |
| CycleService.UpdateCycleEntry | src/services/cycleService.ts:74-111 | NaN 400, then body validation 400 before the 404 lookup; success writes exactly the patched row |
| CycleService.ApplyCyclePatchTouchesSuppliedOnly | src/services/cycleService.ts:101-104 | the owner never changes, absent fields keep their values, a supplied start or end date is stored parsed, a null end date or note clears it, a string note is stored, an empty patch changes nothing, and applying a patch twice equals applying it once |
| CycleService.DeleteCycleEntry | src/services/cycleService.ts:113-122 | NaN 400, absent 404, otherwise exactly that row is removed and returned |
| CycleService.SearchUserCycles | src/services/cycleService.ts:124-152 | 400 exactly for a given start date that does not parse; otherwise the cycles visible to the requester whose note contains the keyword, ignoring case, and whose start equals the date, latest first |
| CycleService.SearchNeverLeaks | src/services/cycleService.ts:132 | a search by a non-admin returns only the requester's own cycles, as stored |
| CycleService.KeywordMatchIgnoresCase | src/services/cycleService.ts:134-139 | the keyword filter matches a note exactly when some piece of the note equals the keyword up to ASCII case, so any re-casing of the keyword matches alike |
| SymptomService.GetSymptoms | src/services/symptomService.ts:9-14 | exactly the user's entries, latest date first |
| SymptomService.UserSymptomsAreOwnLatestFirst | src/services/symptomService.ts:9-14 | every listed entry is the user's, every entry of the user is listed, and dates descend |
| SymptomService.GetSymptomById | src/services/symptomService.ts:16-25 | NaN 400, absent 404, otherwise the stored row |
| SymptomService.NewSymptom | src/services/symptomService.ts:38-45 | the new entry belongs to the user, carries the parsed date, and stores mood and symptoms as the trimmed inputs, which are non-empty and trimmed |
| SymptomService.CreateSymptom | src/services/symptomService.ts:27-46 | a missing or invalid date 400, then a mood and then a symptoms text that is not a non-blank string 400; success adds exactly one row under a fresh id; every stored entry keeps non-empty, trimmed texts |
| SymptomService.UpdateSymptom | src/services/symptomService.ts:48-83 | NaN 400, then 404 before any field is validated, then 400 for a supplied invalid date or blank text with nothing written; success writes exactly the patched row, and stored texts stay non-empty and trimmed |
| SymptomService.PatchKeepsStoredText | src/services/symptomService.ts:66-77 | a patched entry's texts are still non-empty and trimmed |
| SymptomService.ApplySymptomPatchIdempotent | src/services/symptomService.ts:58-77 | the owner never changes, absent fields keep their values, a supplied date is stored parsed and a supplied mood or symptoms text trimmed, and a patch applied twice equals it applied once |
| SymptomService.WriteKeepsTrimmed | src/services/symptomService.ts:38-45 | writing an entry with trimmed texts keeps the table invariant |
| SymptomService.DeleteSymptom | src/services/symptomService.ts:85-94 | NaN 400, absent 404, otherwise exactly that row is removed |
| ReminderService.StoredDescription | src/services/reminderService.ts:46 | the stored description is null exactly for undefined, null or the empty string, and otherwise the trimmed text |
| ReminderService.WriteKeepsTidy | src/services/reminderService.ts:42-49 | writing a tidy reminder keeps the table invariant |
| ReminderService.GetAllRemindersForAdmin | src/services/reminderService.ts:9-14 | every reminder, earliest reminder time first |
| ReminderService.GetUserReminders | src/services/reminderService.ts:16-21 | exactly the user's reminders, earliest first |
| ReminderService.UserRemindersAreOwnInTimeOrder | src/services/reminderService.ts:16-21 | every listed reminder is the user's, all of them are listed, and reminder times ascend |
| ReminderService.NewReminder | src/services/reminderService.ts:42-49 | the stored title is the trimmed input and non-empty, the description is what `StoredDescription` makes of the input, and the time is the parsed one |
| ReminderService.CreateReminder | src/services/reminderService.ts:23-50 | a missing, non-string or blank title 400, a missing or invalid time 400, a description that is neither string nor null 400, in that order; success adds one row for the user |
| ReminderService.NewReminderDefaults | src/services/reminderService.ts:42-49 | a new reminder is active and owned by the user; a whitespace-only description is stored as the empty string, not null |
| ReminderService.Guard | src/services/reminderService.ts:61-76 | NaN 400, absent 404, then 403 for a non-admin who is not the owner; passes exactly for the owner or an admin |
| ReminderService.GetReminderById | src/services/reminderService.ts:135-154 | the same order of failures, and the stored row otherwise |
| ReminderService.ApplyReminderPatch | src/services/reminderService.ts:78-106 | applying a valid patch to a tidy reminder leaves it tidy |
| ReminderService.UpdateReminder | src/services/reminderService.ts:52-112 | NaN 400, 404, 403, then a supplied blank title, bad description, invalid time or non-boolean `isActive` 400 with no coercion; success writes exactly the patched row |
| ReminderService.ApplyReminderPatchTouchesSuppliedOnly | src/services/reminderService.ts:80-106 | the owner never changes, absent fields keep their values, a supplied title is stored trimmed, a supplied description as `StoredDescription` makes it (null clears it), `isActive` is the boolean given, and an empty patch changes nothing |
| ReminderService.ApplyReminderPatchIdempotent | src/services/reminderService.ts:80-106 | a patch applied twice equals it applied once |
| ReminderService.DeleteReminder | src/services/reminderService.ts:114-133 | NaN 400, 404, 403; the row is removed only after both checks pass, and only that row |
| AnalyticService.GetAllAnalytics | src/services/analyticService.ts:9-14 | every analytic, latest period first |
| AnalyticService.GetAnalyticsByUserId | src/services/analyticService.ts:16-21 | exactly the user's analytics, latest period first |
| AnalyticService.UserAnalyticsAreOwnLatestFirst | src/services/analyticService.ts:16-21 | every listed analytic is the user's, all are listed, and period starts descend |
| AnalyticService.NewAnalytic | src/services/analyticService.ts:41-49 | the owner is the user, both dates are the parsed ones, and the average and summary are copied when given and null otherwise |
| AnalyticService.CreateAnalyticForUser | src/services/analyticService.ts:23-50 | a missing or invalid period start 400, then the same for the end, then a non-number average or non-string summary 400; success adds one row |
| AnalyticService.GetAnalyticById | src/services/analyticService.ts:52-61 | NaN 400, absent 404, otherwise the stored row |
| AnalyticService.DeleteAnalyticById | src/services/analyticService.ts:103-112 | NaN 400, absent 404, otherwise exactly that row is removed |
| AnalyticService.UpdateAnalyticById | src/services/analyticService.ts:63-101 | NaN 400, then every field check 400 before the 404 lookup; success writes exactly the patched row |
| AnalyticService.ApplyAnalyticPatchTouchesSuppliedOnly | src/services/analyticService.ts:83-100 | the owner never changes, absent keys keep their fields, supplied dates are stored parsed, a supplied average or summary is stored as given, null clears the average and the summary, and an empty patch changes nothing |
| AnalyticService.NullOnlyClearsOptionalFields | src/services/analyticService.ts:69-80 | null is refused for either period date but accepted for the average and the summary |
| AuthService.AssignedRole | src/services/authService.ts:27-28 | the result is always "user" or "admin", it is "admin" exactly when "admin" was asked for, and a valid requested role is kept |
| AuthService.RegisteredUser | src/services/authService.ts:30-37 | the stored password is the hash of the input, and the role is the assigned one |
| AuthService.RegisterUser | src/services/authService.ts:15-54 | a missing email or password 400, a taken email 400 "User already exists" with no row created; success adds one row, returns the summary without the password and a token for the new id and role |
| AuthService.RegistrationRoleIsDefaulted | src/services/authService.ts:27-28 | an absent or unknown role silently becomes "user" and is never rejected; "admin" only when asked for |
| AuthService.LoginUser | src/services/authService.ts:56-86 | a missing email or password 400; an unknown email, a user without a password and a wrong password all give the same 401 message; success exactly when the stored hash matches, with the token for that user's id and role |
| AuthService.SoleHolderOfEmail | src/services/authService.ts:61-69 | with unique emails, the user found by email is the only one whose credentials can match |
| AuthMiddleware.BearerToken | src/middleware/authMiddleware.ts:22-23 | the token is non-empty, free of spaces, and follows the first space-separated word of the header |
| AuthMiddleware.SplitPrefix | src/middleware/authMiddleware.ts:23 | the first two parts of a split, rejoined, begin the split string |
| AuthMiddleware.BearerTokenOf | src/middleware/authMiddleware.ts:22-23 | `<scheme> <token>`, with anything after it, yields the token whatever the scheme word is |
| AuthMiddleware.NoSpaceNoToken | src/middleware/authMiddleware.ts:25-28 | a header without a space carries no token |
| AuthMiddleware.Authenticate | src/middleware/authMiddleware.ts:17-38 | no token exactly when the header has none, rejected exactly when verification fails, and an accepted token carries the verified payload |
| AuthMiddleware.AuthenticateToken | src/middleware/authMiddleware.ts:17-38 | 401 without a token and 403 for a failed verification, with `next` not called; otherwise `userId` and `userRole` come from the payload, `next` is called and no response is written |
| AuthorizeMiddleware.AuthorizeDecision | src/middleware/authorizeMiddleware.ts:5-17 | exactly one outcome: absent for a missing or empty role, accepted exactly for the required role, refused for any other role |
| AuthorizeMiddleware.AuthorizeRole | src/middleware/authorizeMiddleware.ts:3-18 | 401 for a missing role, 403 for another role, and otherwise `next` is called with no response written |
| AuthorizeMiddleware.AdminGate | src/middleware/authorizeMiddleware.ts:12-17 | the admin gate passes exactly a token role of "admin" and refuses "user" |
| CycleController.GetCycles | src/controllers/cycleController.ts:11-24 | 200 with the listing the service promises |
| CycleController.GetCycleById | src/controllers/cycleController.ts:26-54 | NaN 400 before any lookup, a refused id 500, a missing cycle 404 before the ownership check, a non-owner 403, otherwise 200 with the row |
| CycleController.CreateCycle | src/controllers/cycleController.ts:56-78 | 201 with the created cycle exactly when the service accepts the request (valid fields, an admin's target stored or the requester, a storable note); the stored cycle is `NewCycle` for its owner, who is the admin's named target or else the requester; 400 with nothing stored for invalid fields; any failure leaves the table unchanged |
| CycleController.UpdateCycle | src/controllers/cycleController.ts:80-110 | NaN 400, 404, then 403 for a non-owner even with a malformed body, then the body's 400; 200 exactly when everything passes; nothing is written otherwise |
| CycleController.DeleteCycle | src/controllers/cycleController.ts:112-140 | NaN 400, 404, 403 with nothing deleted; otherwise 204 and exactly that row removed |
| CycleController.SearchCycles | src/controllers/cycleController.ts:142-161 | 400 for a bad start date, otherwise 200 with the search result |
| CycleController.GetCycleStats | src/controllers/cycleController.ts:163-182 | 403 for a non-admin without computing statistics; the statistics are computed exactly for an admin |
| SymptomController.GetSymptoms | src/controllers/symptomController.ts:7-19 | 200 with only the requester's own entries, even for an admin |
| SymptomController.GetSymptomById | src/controllers/symptomController.ts:21-45 | NaN 400 before lookup, 404 before the ownership check, a non-owner 403, otherwise 200 with the row |
| SymptomController.CreateSymptom | src/controllers/symptomController.ts:47-61 | the owner is always the requester; 201 exactly when the fields are valid |
| SymptomController.UpdateSymptom | src/controllers/symptomController.ts:63-89 | NaN 400, 404, 403 with nothing written, then the service's 400; 200 exactly when everything passes |
| SymptomController.DeleteSymptom | src/controllers/symptomController.ts:91-116 | NaN 400, 404, 403 with nothing deleted; otherwise 204 and exactly that row removed |
| SymptomController.GetSymptomsByUser | src/controllers/symptomController.ts:118-141 | 403 for a non-admin before the user id is parsed, then NaN 400; an admin gets that user's entries |
| AnalyticController.Destructure | src/controllers/analyticController.ts:45 | destructuring the body reads each of the four keys, and a missing key reads as undefined |
| AnalyticController.UpdateDataKeepsSuppliedFields | src/controllers/analyticController.ts:91-113 | the update data holds only the four analytic keys and none of them undefined, and the service sees the same four fields as in the body |
| AnalyticController.GetAllAnalyticsForAdmin | src/controllers/analyticController.ts:13-25 | 200 with every analytic, latest period first |
| AnalyticController.GetUserAnalytics | src/controllers/analyticController.ts:28-40 | 200 with only the requester's analytics |
| AnalyticController.CreateAnalytic | src/controllers/analyticController.ts:43-68 | 400 before the service unless both period dates are valid; 201 exactly when the service accepts; the owner is the requester |
| AnalyticController.UpdateAnalytic | src/controllers/analyticController.ts:71-122 | NaN 400, 404, 403 with no write, then 400 for a supplied date that does not parse, then only the supplied analytic keys reach the service; 200 exactly when everything passes |
| AnalyticController.DeleteAnalytic | src/controllers/analyticController.ts:125-152 | NaN 400, 404, 403 with nothing deleted; otherwise 204 and exactly that row removed |
| AnalyticController.GetAnalyticById | src/controllers/analyticController.ts:155-181 | NaN 400, 404, 403, otherwise 200 with the row |
| Scenarios.IssuedTokenAuthenticatesItsUser | src/services/authService.ts:71-75 | a token issued at login, once verified, puts the stored user's id and role on the request, and the admin gate passes exactly for a stored "admin" |
| Scenarios.DeleteCycleTwice | src/services/cycleService.ts:113-122 | after a cycle is deleted, deleting it again gives 404 |

## Left out

- Everything under `dist/`: compiled snapshots that differ from `src/`, and not a second version of the program.
- Password hashing and comparison, and token signing and verification: they are function parameters. The token lifetime and the secret are not modelled.
- `Date.parse` and `new Date`: `Date.parse` is a parameter from strings to optional milliseconds, and a stored date is those milliseconds.
- Prisma's query engine, the `include: { user }` join of the admin listings, and the column types. The model assumes the types the TypeScript annotations give. A value of the wrong type that passes a service's checks becomes an unclassified store failure.
- `getCycleStatistics`: the `groupBy` and `count` aggregation is a database feature. `CycleController.GetCycleStats` receives its result as a parameter.
- Case-insensitive matching beyond ASCII letters: `mode: 'insensitive'` folds other alphabets too, and the model folds only A-Z.
- Referential integrity between `users` and the other tables: the schema is not part of this model, and the tables are independent. `CycleService.CreateCycleEntry` (for a requester creating for themselves), `SymptomService.CreateSymptom`, `ReminderService.CreateReminder` and `AnalyticService.CreateAnalyticForUser` succeed for a user id with no stored user, for instance after the requester has deleted their own account and still holds a valid token. There the store's foreign-key error makes the source answer 500. `UserService.DeleteUser` succeeds for a user who still owns rows, which the schema's `onDelete` rule might refuse (a 500 in the source).
- A query-string value given more than once (an array in `req.query`): a search parameter is modelled as an optional string.
- 32-bit limits of the integer columns: ids are unbounded integers.
- `averageCycle` as a JavaScript number: it is a `real`, so NaN and infinities are not represented.
- AnalyticService.UpdateAnalyticById: it takes only the four analytic keys. A caller passing any other key would have that key written too. The only caller, `updateAnalytic`, strips other keys, and `AnalyticController.UpdateDataKeepsSuppliedFields` proves it.
- The routes and app wiring (`src/index.ts`, `src/routes/*`), and with them which handler is behind `authorizeRole('admin')`.
- The controllers that only forward to a service (`userController.ts`, `reminderController.ts`, `authController.ts`).
- Characters outside the Basic Multilingual Plane: a string is a sequence of code points, while JavaScript's `length` counts UTF-16 code units. So the six-character password minimum of `isValidPassword` (`UserService.IsValidPassword`) counts such a character once where JavaScript counts it twice, and rejects some passwords the source accepts.
- `console.log` output, and the `try`/`catch` around `getAllCycles`, `getSymptoms` and the listings: the model's store never throws there.
- The commented-out guard against an admin deleting their own account: it is not enforced, and the model allows it.
