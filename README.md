# User registration system: a Dafny model

This project models the core of a small user-registration system. The core
has two parts:

- An Express back end, `backend/index.js`. It registers users into a MongoDB
  collection, with the password hashed by bcrypt. On login it issues a JSON Web
  Token that lasts one hour. The `authenticateJWT` gate guards `/protected` and
  `/logout`, and logging out adds the presented token to an in-memory
  `tokenBlacklist`.
- Three React forms: the product-request form, the user-registration form and
  the form that updates an existing product request. Each keeps its field
  values and an error map. The forms have a field-wise change handler, a
  `validate` that fills the error map, and a submit handler guarded by
  `validate`.

The modules follow this structure:

- `JsText` holds the JavaScript string primitives the core relies on. It has
  `trim` and the whitespace class `\s`, `split` with a one-character separator,
  and `.length` counted in UTF-16 code units.
- `EmailFormat` models the registration form's e-mail regular expression as a
  predicate. A lemma proves it equivalent to a plain description of the address
  shape.
- `FormRules` holds the priority check, the messages and the shared date-part
  extraction `toISOString().split("T")[0]`.
- `ProductRequestForm`, `RegistrationForm` and `UpdateRequestForm` each hold:
  - a datatype for the form data;
  - pure change and merge functions;
  - a `Describes` predicate that says what error map `validate` must build;
  - a heap-free `CollectErrors` method that builds it;
  - a `Form` class whose fields are the component's state, with methods
    `HandleChange`, `Validate` and `HandleSubmit`.
- `AuthServer` holds the back end as a class `Server`. Its fields are the user
  store (a `seq<User>` in insertion order) and `tokenBlacklist` (a
  `set<string>`).
  - `Register` and `Logout` are methods that change those fields.
  - `Login` and `Protected` only read them, so they are functions.
  - The gate is the function `Authenticate`.

bcrypt and the JWT library are foreign code. The server is built with them as
function values (`Bcrypt`, `Jwt`). Its constructor requires only the laws the
back end relies on:

- `compare(p, hash(p, salt))` holds for every password and salt.
- A signed token verifies to its claims strictly before one hour after issue,
  and not from then on.
- A signed token is non-empty and contains no space.

The clock (`now`, in seconds) and bcrypt's random salt are parameters.

## Model

| member | source | states |
|---|---|---|
| JsText.TrimStartShape | frontend/src/ProductRequestForm.js:20 | `trimStart` keeps a suffix, every character it drops is whitespace, and the first character it keeps is not |
| JsText.TrimEndShape | frontend/src/ProductRequestForm.js:26 | `trimEnd` keeps a prefix, every character it drops is whitespace, and the last character it keeps is not |
| JsText.TrimShape | frontend/src/UpdateRequestForm.js:21 | `trim` returns the piece of its input left after removing only whitespace from both ends, and a non-empty result neither starts nor ends with whitespace |
| JsText.BlankIffAllSpace | frontend/src/RegistrationForm.js:22 | `!s.trim()` holds exactly when every character of `s` is whitespace |
| JsText.Utf16Length | frontend/src/RegistrationForm.js:41 | `.length` lies between the number of code points and twice that, and is 0 only for the empty string |
| JsText.Split | backend/index.js:106 | `split` yields at least one piece, exactly one when the separator is absent, and no piece contains the separator |
| JsText.SplitWithoutSeparator | frontend/src/ProductRequestForm.js:7 | a string without the separator splits into itself alone |
| JsText.SplitAfterFirst | backend/index.js:106 | splitting `a + sep + b`, where `a` has no separator, gives `a` followed by the pieces of `b` |
| JsText.JoinSplit | frontend/src/ProductRequestForm.js:7 | joining the pieces of a split with the separator gives back the original string |
| JsText.SplitJoin | frontend/src/ProductRequestForm.js:7 | splitting a join of separator-free pieces gives back the pieces |
| EmailFormat.RegexTestIffWellShaped | frontend/src/RegistrationForm.js:28 | `emailRegex.test(s)` holds iff `s` has no whitespace, exactly one `@` with text before it, and after the `@` a `.` that is neither first nor last |
| EmailFormat.MatchImpliesShape | frontend/src/RegistrationForm.js:28 | any one match of the pattern gives the address that shape |
| EmailFormat.SurroundingSpaceRejected | frontend/src/RegistrationForm.js:28-35 | the pattern is tested on the untrimmed value, so leading or trailing whitespace makes the address invalid |
| EmailFormat.BlankRejected | frontend/src/RegistrationForm.js:29-35 | a blank address never matches the pattern, so every blank address is reported |
| FormRules.DatePart | frontend/src/ProductRequestForm.js:7 | `iso.split("T")[0]` is the prefix of `iso` before its first `T`, or all of `iso` when it has none |
| FormRules.DatePartOfTimestamp | frontend/src/UpdateRequestForm.js:6 | the date part of `date + "T" + time` is `date` |
| FormRules.DatePartOfDate | frontend/src/UpdateRequestForm.js:6 | a plain date is its own date part |
| ProductRequestForm.Changed | frontend/src/ProductRequestForm.js:13-16 | one change event sets the field it names, keeps the other fields, and never touches `requestDate` |
| ProductRequestForm.RequestDateFixed | frontend/src/ProductRequestForm.js:74-80 | no sequence of change events moves the auto-filled `requestDate`, because its input is read-only |
| ProductRequestForm.LastChangeWins | frontend/src/ProductRequestForm.js:13-16 | a second change of the same input overrides the first |
| ProductRequestForm.CollectErrors | frontend/src/ProductRequestForm.js:18-31 | the map has an entry, with the source's message, exactly for a blank URL, an absent priority or one outside 1..10, and a blank required-by date; `valid` holds iff the map is empty |
| ProductRequestForm.ChangeKeepsOtherVerdicts | frontend/src/ProductRequestForm.js:18-28 | editing one input leaves every other field's verdict as it was |
| ProductRequestForm.FieldRules | frontend/src/ProductRequestForm.js:20-28 | URL and required-by date are rejected iff they are all whitespace; priority is rejected iff it is not a number in 1..10 |
| ProductRequestForm.Form.constructor | frontend/src/ProductRequestForm.js:4-11 | empty URL, priority and required-by date, today's date part as `requestDate`, no errors |
| ProductRequestForm.Form.HandleChange | frontend/src/ProductRequestForm.js:13-16 | the form data becomes `Changed` of the old data and the event |
| ProductRequestForm.Form.Validate | frontend/src/ProductRequestForm.js:18-31 | the committed errors are the described map, and the result is true iff that map is empty, iff no field is rejected |
| ProductRequestForm.Form.HandleSubmit | frontend/src/ProductRequestForm.js:33-40 | the form is submitted iff URL and required-by date are not blank and priority is in 1..10; the errors shown describe the data |
| RegistrationForm.WithField | frontend/src/RegistrationForm.js:12-15 | `{ ...prev, [name]: value }` sets the named field and keeps every other field |
| RegistrationForm.WithOwnValue | frontend/src/RegistrationForm.js:12-15 | writing back a field's own value changes nothing |
| RegistrationForm.CollectErrors | frontend/src/RegistrationForm.js:17-48 | username error iff blank; e-mail error iff the untrimmed address fails the pattern, "required" when it is blank and "invalid" otherwise; password error iff shorter than 6 UTF-16 units, "required" when empty and "too short" otherwise; `valid` iff no error |
| RegistrationForm.Form.constructor | frontend/src/RegistrationForm.js:4-10 | all three fields empty, no errors |
| RegistrationForm.Form.HandleChange | frontend/src/RegistrationForm.js:12-15 | the form data becomes `WithField` of the old data |
| RegistrationForm.Form.Validate | frontend/src/RegistrationForm.js:17-48 | the committed errors are the described map, and the result is true iff the data is acceptable, iff the map is empty |
| RegistrationForm.Form.HandleSubmit | frontend/src/RegistrationForm.js:50-58 | an acceptable form is cleared to empty fields with no errors; any other form keeps its data and shows a non-empty error map that describes it |
| RegistrationForm.PasswordLengthRule | frontend/src/RegistrationForm.js:38-44 | for text without astral characters, the password is rejected as short iff it has fewer than 6 characters |
| RegistrationForm.BasicPlaneLength | frontend/src/RegistrationForm.js:41 | without astral characters, `.length` is the number of characters |
| UpdateRequestForm.InitialData | frontend/src/UpdateRequestForm.js:4-7 | the form starts with the request's priority and the text of its required-by timestamp before the first `T`, or all of it when there is none |
| UpdateRequestForm.Changed | frontend/src/UpdateRequestForm.js:11-14 | one change event sets the field it names and keeps the other |
| UpdateRequestForm.Merge | frontend/src/UpdateRequestForm.js:31 | `{ ...currentRequest, ...formData }` takes priority and required-by date from the form and every other field from the request |
| UpdateRequestForm.ReopenAfterMerge | frontend/src/UpdateRequestForm.js:4-7 | reopening the form on a merged request with a plain required-by date shows exactly the merged values |
| UpdateRequestForm.UntouchedSubmit | frontend/src/UpdateRequestForm.js:28-32 | submitting the untouched form changes the request only by cutting the time off its required-by timestamp |
| UpdateRequestForm.MergeIdempotent | frontend/src/UpdateRequestForm.js:31 | merging the same form twice is the same as merging it once |
| UpdateRequestForm.CollectErrors | frontend/src/UpdateRequestForm.js:16-26 | a priority error iff it is absent or outside 1..10, a date error iff the date is blank, each with the source's message; `valid` iff neither |
| UpdateRequestForm.Form.constructor | frontend/src/UpdateRequestForm.js:4-9 | the form holds the current request, starts from `InitialData`, and has no errors |
| UpdateRequestForm.Form.HandleChange | frontend/src/UpdateRequestForm.js:11-14 | the form data becomes `Changed` of the old data |
| UpdateRequestForm.Form.Validate | frontend/src/UpdateRequestForm.js:16-26 | the committed errors are the described map; the result is true iff the map is empty, iff neither field is rejected |
| UpdateRequestForm.Form.HandleSubmit | frontend/src/UpdateRequestForm.js:28-32 | `onUpdate` receives the merged request exactly when validation passes |
| UpdateRequestForm.UpdateIsInRange | frontend/src/UpdateRequestForm.js:16-32 | every request handed to `onUpdate` has a priority in 1..10 and a required-by date that is not all whitespace |
| AuthServer.FindOne | backend/index.js:74-76 | `findOne` gives the first matching user in store order, and nothing exactly when no user matches |
| AuthServer.BearerToken | backend/index.js:106 | a token is extracted iff the header is present and contains a space, and the token contains no space |
| AuthServer.BearerTokenOf | backend/index.js:106 | the header `"<scheme> <token>"` yields the token when neither part has a space |
| AuthServer.BearerTokenOfRest | backend/index.js:106 | for any header `"<scheme> <rest>"` with a space-free scheme, the token is the text of `rest` up to its first space |
| AuthServer.Authenticate | backend/index.js:105-123 | a request passes only with a non-empty token that is not blacklisted and verifies to the claims handed on; a refusal is 401 or 403; 401 with "No token provided" iff the token is missing |
| AuthServer.NoSpaceNoToken | backend/index.js:106-110 | an absent header, or one without a space, is refused with 401 |
| AuthServer.RevokedTokenRefused | backend/index.js:112-114 | a revoked token stays refused with 403 "invalidated" under any clock and any larger blacklist, even while its signature is still valid |
| AuthServer.VerifyDecides | backend/index.js:116-122 | past the presence and blacklist checks, a failed verification gives 403 "Invalid or expired token"; a successful one passes with the decoded claims |
| AuthServer.IssuedTokenLifecycle | backend/index.js:105-123 | a token issued at `t` and presented as `"<scheme> <token>"` is refused once blacklisted; otherwise it passes with its claims while `now < t + 3600` and is refused as expired from then on |
| AuthServer.Server.constructor | backend/index.js:6 | an empty store and an empty `tokenBlacklist` |
| AuthServer.Server.Register | backend/index.js:34-62 | a missing field gives 400 and a known e-mail gives 400 "User already exists.", both leaving the store unchanged; a username taken under another e-mail gives 500 and leaves the store unchanged; otherwise 201, and the store gains exactly one user with the next id and the bcrypt digest of the password; ids stay positions, and e-mails and usernames stay distinct |
| AuthServer.Server.Login | backend/index.js:64-100 | a missing field gives 400; no user with that username or e-mail gives 400 "Invalid username or email."; for the first matching user, a wrong password gives 400 "Invalid password." and a right one gives 200 with a token signed for that user's id and name at `now` |
| AuthServer.Server.Logout | backend/index.js:125-132 | a refusal of the gate is the reply and leaves the blacklist unchanged; a pass gives 200 "Logout successful." and adds exactly the presented token; the blacklist only grows |
| AuthServer.Server.Protected | backend/index.js:134-136 | 200 iff the gate passes; otherwise the gate's own refusal |
| AuthServer.RegisteredUserLogsIn | backend/index.js:64-95 | a user just registered, whom no earlier user shadows, logs in with the registered password and gets a token for their own id and name |
| AuthServer.SignUpAndLogIn | backend/index.js:34-95 | on a fresh server, registering alice gives 201, and logging her in gives 200 with her token |
| AuthServer.EndToEnd | backend/index.js:34-136 | the run register, login, protected, logout, protected with the same token, then re-register the e-mail yields the statuses 201, 200, 200, 200, 403, 400 |

## Left out

- bcrypt's hashing and JWT signing are not modelled inside. The model keeps only the laws listed above, and the server's secret key is built into the `Jwt` value.
- `saltRounds` is not modelled. The salt is a parameter.
- MongoDB, Express and `body-parser` are not modelled. The store is a sequence in insertion order, which is the order `findOne` is taken to return documents in.
- `_id` generation is not modelled as an ObjectId. A user's id is their position in the store.
- The 500 answers for a failed database connection or any other thrown error are not modelled. The only 500 modelled is the duplicate-username save failure.
- Request-body fields that are not strings are not modelled, such as numbers, objects, `0`, `false` and `null`. A field is absent or a string, and it is missing when it is absent or the empty string.
- Concurrent requests are not modelled. Each handler runs to completion before the next.
- `console.log`, `console.error` and `alert` output is not modelled. Submitting is a returned flag.
- AuthServer.Server.Logout: the 400 "Invalid token." answer at backend/index.js:131 is unreachable, because the gate has already refused any request without a token. The model keeps that branch and proves it dead.
- The number inputs' string values are not modelled literally. Priority is `None` for an empty input or a number otherwise, so `NaN`, non-numeric text and JavaScript's string-to-number coercion are outside the model.
- `new Date(...)` and `toISOString()` are not modelled. The model takes the ISO text as its input and models only the `split("T")[0]` applied to it.
- React's batched and asynchronous state updates are not modelled, and neither are stale closures. Each handler sees the state left by the previous one.
- Rendering is not modelled: the JSX, the `min`/`max`/`type` attributes, and the browser's own input validation.
- `onUpdate` and `onCancel` of the update form are not modelled. `HandleSubmit` returns the value that would be passed to `onUpdate`.
- The other components are not part of this model: the donor forms, the login form, the dashboard, the role selectors, the app shell and the puppeteer script.
