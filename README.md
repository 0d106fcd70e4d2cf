# MediSurge front end: validation, submit state machines and request shaping

MediSurge helps a hospital plan for demand surges: a user signs up or logs in,
enters the hospital's location, uploads an inventory file and gets back a surge
plan with a briefing. This project is a Dafny model of the logic of the React
front end that drives this:

- **The login / sign-up dialog** (`surge/src/components/AuthModal.jsx`), module
  `AuthModalComponent`. The e-mail regular expression `/^[^\s@]+@[^\s@]+\.[^\s@]+$/`
  becomes two explicit string predicates (an executable one and one that follows
  the expression piece by piece) proved equal. The per-field rules build an
  error object with fixed messages, and the form is valid when that object is
  empty. Class `AuthModal` holds the dialog's state (`loading`, both forms, both
  error objects, the parent's logged-in flag, whether `onClose` was called,
  and localStorage). Its `HandleLogin`/`HandleSignup` step through
  validate -> loading -> success / failure / exception -> not loading. The
  network call is given as an abstract outcome.
- **The dashboard** (`surge/src/components/Dashboard.jsx`), module
  `DashboardComponent`. Class `Dashboard` holds the location, the selected
  file, the plan, the loading flag and a log of the toasts raised. The upload
  checks run in their order: missing information, then the file type
  `/\.(csv|xlsx|xls|json)$/i`. The file-type test is proved equal to "the text
  after the last '.' is, ignoring ASCII case, one of csv, xlsx, xls, json".
  Valid input moves to the fixed demonstration plan.
- **The request layer** (`surge/src/services/api.js`), module `ApiService`. It
  covers the authorisation headers from the stored token, the URL, the merge of
  the caller's options over the default headers (later keys win, as in object
  spread), the error message for a failed response, and the endpoint table of
  the `api` object. `fetch` is a function parameter of `ApiRequest`.

Module `JsText` holds the JavaScript string semantics these rely on. These are:
the `\s` class, truthiness of an optional string, `length` in UTF-16 code
units, ASCII case folding of a non-unicode `/i` expression, and the decimal
rendering of a status code (with a parse-back round trip). Module `Wrappers`
holds `Option` and `Result`.

MediSurge's back end computes the actual surge plan (feature extraction,
event detection, capped multipliers, rounding, briefing) in a `surge_planner`
module that is not part of this model, so none of its rules are modelled. The
dashboard shown here does not call it: it sets a fixed demonstration plan.

## Model

| member | source | states |
|---|---|---|
| `AuthModalComponent.ValidateEmailMatchesPattern` | surge/src/components/AuthModal.jsx:45-48 | `validateEmail` accepts exactly the strings `A@B.C` with `A`, `B`, `C` non-empty runs free of white space and '@' (both directions) |
| `AuthModalComponent.ValidEmailMatchesPattern` | surge/src/components/AuthModal.jsx:45-48 | an accepted address has the `A@B.C` shape of the expression |
| `AuthModalComponent.PatternMatchIsValidEmail` | surge/src/components/AuthModal.jsx:45-48 | any `A@B.C` split of the expression's shape is accepted |
| `AuthModalComponent.ValidEmailHasSingleAt` | surge/src/components/AuthModal.jsx:45-48 | an accepted address holds exactly one '@', not at the start |
| `AuthModalComponent.EmailRule` | surge/src/components/AuthModal.jsx:53-57 | empty e-mail gives "Email is required", non-empty invalid gives "Please enter a valid email", no message iff the address is valid |
| `AuthModalComponent.PasswordRule` | surge/src/components/AuthModal.jsx:59-63 | empty password gives "Password is required", length 1-5 (UTF-16 units) gives "Password must be at least 6 characters", no message iff length >= 6 |
| `AuthModalComponent.LoginErrorsMeaning` | surge/src/components/AuthModal.jsx:50-67 | the login error object only has e-mail and password keys, each present iff its rule fails, with the message chosen by emptiness; it is empty iff the e-mail is valid and the password has at least 6 units |
| `AuthModalComponent.SignupErrorsMeaning` | surge/src/components/AuthModal.jsx:69-90 | sign-up errors are the login errors of its e-mail and password plus "Hospital name is required" iff the name is empty; the location never yields an error nor changes the result |
| `AuthModalComponent.AuthModal.constructor` | surge/src/components/AuthModal.jsx:21-43 | a new dialog: base URL from REACT_APP_API_URL or "http://localhost:8000", not loading, empty forms and error objects |
| `AuthModalComponent.AuthModal.ValidateLoginForm` | surge/src/components/AuthModal.jsx:50-67 | stores the login error object of the current form and returns true iff it has no keys |
| `AuthModalComponent.AuthModal.ValidateSignupForm` | surge/src/components/AuthModal.jsx:69-90 | stores the sign-up error object of the current form and returns true iff it has no keys |
| `AuthModalComponent.AuthModal.ResetForms` | surge/src/components/AuthModal.jsx:92-97 | both forms and both error objects become empty; nothing else changes |
| `AuthModalComponent.AuthModal.HandleClose` | surge/src/components/AuthModal.jsx:99-102 | resets the forms and calls the parent's `onClose` |
| `AuthModalComponent.AuthModal.Succeed` | surge/src/components/AuthModal.jsx:123-129 | stores `access_token` under authToken and the user's JSON under user ("undefined" when absent), sets logged-in, resets and closes |
| `AuthModalComponent.AuthModal.HandleLogin` | surge/src/components/AuthModal.jsx:104-140 | invalid form: only the error object changes, no request, loading untouched; otherwise a POST of the form to base + "/auth/login", then success state, or general error = `detail` if truthy else "Login failed", or "Network error. Please try again." on an exception; loading false at the end |
| `AuthModalComponent.AuthModal.HandleSignup` | surge/src/components/AuthModal.jsx:142-178 | as for login with the sign-up form, "/auth/signup" and "Signup failed" |
| `DashboardComponent.SuffixIsLastDotExtension` | surge/src/components/Dashboard.jsx:42 | one alternative of the file pattern matches iff the text after the last '.' is that extension, ignoring case |
| `DashboardComponent.AllowedExtensionIsLastDotExtension` | surge/src/components/Dashboard.jsx:42 | a file name passes the type check iff it has a '.' and the text after the last one is, ignoring ASCII case, csv, xlsx, xls or json |
| `DashboardComponent.ExtensionExamples` | surge/src/components/Dashboard.jsx:42 | "a.csv.txt" and "csv" are rejected; "A.JSON", "stock.Xlsx" and ".csv" are accepted |
| `DashboardComponent.CheckUpload` | surge/src/components/Dashboard.jsx:30-51 | missing information (no file or empty location) takes precedence over the file type; ready iff file present, location non-empty and the type accepted |
| `DashboardComponent.Dashboard.constructor` | surge/src/components/Dashboard.jsx:4-8 | empty location, no file, no plan, not loading |
| `DashboardComponent.Dashboard.EditLocation` | surge/src/components/Dashboard.jsx:104 | the location becomes the typed value |
| `DashboardComponent.Dashboard.HandleFileChange` | surge/src/components/Dashboard.jsx:15-27 | no selected file leaves `file` and the toasts unchanged; otherwise `file` is the selected one and a "File Selected" toast naming it is raised |
| `DashboardComponent.Dashboard.HandleUpload` | surge/src/components/Dashboard.jsx:29-93 | missing information or a rejected type raises its warning/error toast and leaves plan and loading unchanged; otherwise the plan becomes the fixed demonstration plan (independent of location and file), two info/success toasts are raised and loading ends false |
| `ApiService.BaseUrl` | surge/src/services/api.js:4 | the base URL is REACT_APP_API_URL when truthy, "http://localhost:8000" otherwise |
| `ApiService.AuthHeaders` | surge/src/services/api.js:7-13 | Content-Type is always "application/json"; Authorization is present iff the stored token is truthy and is then "Bearer " + token; no other header |
| `ApiService.AuthHeadersCarryToken` | surge/src/services/api.js:7-13 | reading the bearer token back from the headers gives the stored token when truthy and nothing otherwise |
| `ApiService.RequestUrl` | surge/src/services/api.js:17 | the URL is the base followed by the endpoint, nothing inserted |
| `ApiService.RequestConfig` | surge/src/services/api.js:18-21 | the config has the caller's keys plus `headers`; every caller key keeps its value; the auth headers are used only when the caller gives no `headers` |
| `ApiService.CallerHeadersReplaceAuth` | surge/src/services/api.js:18-21 | a caller's `headers` replaces the auth headers wholesale, so the token is sent only if the caller's headers carry it |
| `ApiService.ErrorMessageSources` | surge/src/services/api.js:26-29 | a failed response's message is "Network error" for a non-JSON body, the body's truthy `message`, or "HTTP <status>" |
| `ApiService.FallbackMessageNamesStatus` | surge/src/services/api.js:28 | the "HTTP <status>" message renders the status in decimal so that it reads back as the same number |
| `JsText.DecimalRoundTrip` | surge/src/services/api.js:28 | the decimal rendering of a status parses back to the status |
| `JsText.DecimalString` | surge/src/services/api.js:28 | the rendering of a number is a non-empty digit string without a leading zero |
| `JsText.Utf16Length` | surge/src/components/AuthModal.jsx:61 | the JavaScript length lies between the number of characters and twice that, and is 0 only for the empty string |
| `JsText.LowerAscii` | surge/src/components/Dashboard.jsx:42 | case folding is character by character, length preserving, ASCII letters only |
| `JsText.OrElse` | surge/src/components/AuthModal.jsx:25 | `v || fallback` gives `v` when it is a non-empty string and the fallback otherwise |
| `ApiService.ApiRequest` | surge/src/services/api.js:16-36 | fetches base + endpoint with the merged config; an ok JSON response returns its body unchanged, a non-ok one throws with the message above, a non-JSON ok body and a rejected fetch throw |
| `ApiService.CallOptions` | surge/src/services/api.js:39-61 | no call passes `headers`; every call but health is a POST; a body is sent iff the call is login, signup or plan generation |
| `ApiService.EndpointTable` | surge/src/services/api.js:39-61 | health -> "/" with default options, login -> POST "/auth/login", signup -> POST "/auth/signup", logout -> POST "/auth/logout" without a body, plan.generate -> POST "/plan", each body being the call's JSON |
| `ApiService.PathsDistinguishCalls` | surge/src/services/api.js:39-61 | two calls with the same path are of the same kind |
| `ApiService.EveryCallIsAuthorised` | surge/src/services/api.js:39-61 | every call of the `api` object sends the auth headers of the stored token, keeping its own method and body |
| `ApiService.Invoke` | surge/src/services/api.js:39-75 | each `api` call settles as `apiRequest` does on the call's path and options |

## Left out

- The multiplier-planning pipeline (`build_multiplier_plan`, `apply_multipliers`, `make_human_nlg`) is imported by vercel_app.py and vercel_app_new.py from a `surge_planner` module that is not part of this model, so its caps, rounding and briefing rules are not modelled.
- The Python back end (vercel_app.py, vercel_app_new.py, database.py, api/index.py, start_server.py): HTTP routing, CORS, ORM tables and start-up glue over libraries and an `auth` module that is not part of this model.
- Rendering (Chakra components, JSX), toast durations and `isClosable`, `console.error` logging and `e.preventDefault()`: presentation only. Toasts are kept as (title, description, status).
- The input change handlers of the dialog (AuthModal.jsx:201, 211, 241, 251, 261, 270): each only replaces one field of a form; the form fields are plain fields of `AuthModal`.
- `fetch`, timers and JSON: the dialog's request is an abstract three-way `AuthOutcome`; `apiRequest` receives `fetch` as a function. JSON bodies are flat objects of string fields. A non-string `detail`, `message` or `access_token` is not modelled, and arguments of the `api` calls are taken already serialised.
- The dialog's request always carries `method: 'POST'` and `Content-Type: application/json` (AuthModal.jsx:116-119); `AuthRequest` records only the URL and the form sent.
- The "Generation Failed" branch of `handleUpload` (Dashboard.jsx:82-89): its try block only raises toasts, waits on a timer and sets the plan, none of which can throw, so the model has no path into it.
- Dashboard's `API_URL` (Dashboard.jsx:13) and `payload` (Dashboard.jsx:65) are computed but never used.
- Concurrency: React's batched state updates and a second submit while one is pending. The model applies each handler's updates in program order as one step.
- AuthModalComponent.AuthModal.HandleLogin: the interval in which `loading` is true while the request is pending is not observable, because the outcome of the request is given as a completed value; only the final `loading == false` is stated.
- AuthModalComponent.AuthModal.HandleSignup: as for HandleLogin, only the final value of `loading` is stated.
- DashboardComponent.Dashboard.HandleUpload: the 1.5 s delay while `loading` is true is not observable; only the final `loading == false` is stated.
