# LikinPark client logic in Dafny

LikinPark is a mobile front-end for a parking service. Users sign in, list the
vehicles currently parked, and register vehicle entry and exit against a REST
backend. Most of the client is screens and HTTP glue. This project models the
two pieces that hold real logic:

- **The input validators.**
  - Plate normalisation and validation, with the entry and exit guards of the bottom navigation bar.
  - The search modal's query classifier and its result slots.
  - The registration screen's required-field and e-mail checks.

  Every regular expression is written as an explicit character-class predicate (module `Pattern`). The e-mail expression is a predicate over an `@` position and a `.` position.
- **The session/token state machine.**
  - The `useAuth` hook, with its `init`, `login` and `logout` transitions over `(token, user, loading, store)`.
  - The login screen's separate flow, which writes the same storage key.
  - The request interceptor that turns the stored token into `Authorization: Bearer <token>`, following section 2.1 of RFC 6750.

Collaborators are not called. Their outcomes are parameters:
- the device store's `getItem`/`setItem`/`removeItem` either complete or throw;
- backend calls either resolve with a body or reject with an optional error body.

Alerts, navigation and refresh callbacks are recorded as values in each handler's outcome. Every handler runs to completion with the component mounted.

Modules: `Wrappers` (Option), `Text` (ASCII classes, ECMAScript whitespace,
`trim`, upper-casing), `Pattern`, `Plate`, `Http`, `Storage`, `Navbar`,
`Search`, `Email`, `Register`, `Api`, `Session`, `LoginScreen`.

Two behaviours of the session code that are easy to miss:

- `logout` propagates a failing `removeItem` and leaves `token`, `user` and the stored key unchanged (`Session.Logout`).
- If the clean-up `removeItem` in `init` throws, the token stays stored while `token` and `user` are cleared (`Session.Init`).

## Model

| member | source | states |
|---|---|---|
| `Text.Trim` | components/ui/SearchModal.tsx:36 | `trim` gives the slice between leading and trailing whitespace: it starts and ends with non-whitespace, and everything cut off is whitespace |
| `Text.TrimEmpty` | components/ui/BottomNavbar.tsx:118 | a string trims to empty exactly when every character is whitespace (the `!x.trim()` guards) |
| `Text.TrimIdempotent` | app/register.tsx:19 | trimming an already trimmed value changes nothing |
| `Text.TrimKeepsText` | app/register.tsx:25-26 | every non-whitespace character survives trimming, in place |
| `Text.WhitespaceIsNotText` | app/register.tsx:20 | a `\s` character is never an ASCII letter or digit, an `@` or a `.` |
| `Text.ToUpper` | components/ui/BottomNavbar.tsx:30 | upper-casing keeps the length and maps every character through ASCII upper-casing |
| `Text.IsWhitespace` | app/register.tsx:20 | definition: the ECMAScript WhiteSpace and LineTerminator set behind `\s` and `trim`; `Text.WhitespaceIsNotText` separates it from the characters the validators test |
| `Plate.StripSeparators` | components/ui/BottomNavbar.tsx:30 | removing `[^A-Za-z0-9]` leaves only ASCII letters and digits, each letter or digit of the input still present, and never lengthens |
| `Plate.StripSeparatorsCounts` | components/ui/BottomNavbar.tsx:30 | every ASCII letter and digit occurs in the result exactly as often as in the input, and no other character occurs |
| `Plate.NormalizePlate` | components/ui/BottomNavbar.tsx:30 | the normal form holds only `A-Z` and `0-9` and is no longer than the input |
| `Plate.IsPlateValid` | components/ui/BottomNavbar.tsx:32-35 | definition: the normal form matches pattern A or pattern B exactly; `Plate.ValidIffShape` gives its meaning position by position |
| `Plate.NormalizeConcat` | components/ui/BottomNavbar.tsx:30 | normalisation distributes over concatenation |
| `Plate.NormalizeIdempotent` | components/ui/BottomNavbar.tsx:30 | normalising twice equals normalising once |
| `Plate.ValidityInvariantUnderNormalize` | components/ui/BottomNavbar.tsx:32-34 | `isPlateValid(normalizePlate(q)) == isPlateValid(q)` for every q |
| `Plate.ValidIffShape` | components/ui/BottomNavbar.tsx:34 | valid exactly when the normal form has length 7: three letters, a digit, then a digit (pattern A) or a letter (pattern B), then two digits |
| `Plate.SeparatorIgnored` | components/ui/BottomNavbar.tsx:30-34 | inserting a non-alphanumeric character anywhere changes neither the normal form nor validity |
| `Plate.CaseIgnored` | components/ui/BottomNavbar.tsx:30-34 | inputs that differ only in letter case have the same normal form and validity |
| `Plate.ExampleSeparatorAndCase` | components/ui/BottomNavbar.tsx:30-34 | `"abc-1234"` normalises to `"ABC1234"` and is valid |
| `Plate.ExampleOldShape` | components/ui/BottomNavbar.tsx:34 | `"ABC1234"` is valid |
| `Plate.ExampleMercosul` | components/ui/BottomNavbar.tsx:34 | `"ABC1D23"` is valid |
| `Plate.ExampleRejected` | components/ui/BottomNavbar.tsx:34 | `"AB1234"` and `""` are not valid |
| `Http.OrElse` | components/ui/BottomNavbar.tsx:129 | JavaScript's logical-or fallback on an optional string takes the value exactly when it is present and non-empty |
| `Storage.Set` | hooks/useAuth.ts:62 | a completed `setItem` makes the key read back the value; a throwing one changes nothing; other keys are untouched |
| `Storage.Remove` | hooks/useAuth.ts:81 | a completed `removeItem` makes the key absent; a throwing one changes nothing; other keys are untouched |
| `Navbar.CommonGuard` | components/ui/BottomNavbar.tsx:118-119 | both handlers pass their guards exactly when the trimmed input is non-empty and the token is truthy |
| `Navbar.Settle` | components/ui/BottomNavbar.tsx:126-139 | after the request, success closes that handler's modal, clears the input, refreshes and keeps the rest of the state, alerting "Sucesso" with the server's `mensagem` or "Entrada registrada."/"Saída registrada."; failure changes only `loading` and alerts "Erro" with the error body's `mensagem` or "Não foi possível liberar a entrada."/"… a saída."; `loading` ends false |
| `Navbar.HandleEntry` | components/ui/BottomNavbar.tsx:117-140 | a blank input is refused before the token is checked; a non-blank, authenticated but invalid plate gets "Placa inválida. Use AAA-1234 ou AAA1A23."; a request is made exactly when the input is non-blank, the token is present and the plate is valid; the payload is the normalised plate, which has the plate shape; a refused press changes nothing; a sent request settles as `Navbar.Settle` states for the entry modal, so success resets the input to `""` |
| `Navbar.HandleExit` | components/ui/BottomNavbar.tsx:143-161 | the same two guards and no format check; a request is made exactly when they pass; the payload is the upper-cased raw input; a sent request settles as `Navbar.Settle` states for the exit modal, so success resets the input to `""` |
| `Navbar.ExitPayloadKeepsSeparators` | components/ui/BottomNavbar.tsx:149 | the exit payload has the input's length, keeps every non-letter in place, and normalises to the plate entry would send |
| `Navbar.BlankInputRefusedFirst` | components/ui/BottomNavbar.tsx:144 | whitespace-only input gets "Informe a placa do veículo." from both handlers, whatever the token, and makes no request |
| `Navbar.ExitExample` | components/ui/BottomNavbar.tsx:149 | exit sends `"abc-1234"` as `"ABC-1234"` |
| `Navbar.EntryExample` | components/ui/BottomNavbar.tsx:121-128 | entry sends `"abc-1234"` as `"ABC1234"` |
| `Navbar.ExitUpperCaseExample` | components/ui/BottomNavbar.tsx:149 | upper-casing `"abc-1234"` gives `"ABC-1234"` |
| `Navbar.ExitSkipsValidation` | components/ui/BottomNavbar.tsx:143-149 | exit sends the invalid plate `"AB1234"` |
| `Navbar.EntryRefusesShortPlate` | components/ui/BottomNavbar.tsx:122-124 | entry refuses `"AB1234"` with the invalid-plate alert |
| `Search.IsId` | components/ui/SearchModal.tsx:42 | definition: `^\d+$` as one-or-more of the digit class; `Search.ClassifierMeaning` gives its meaning |
| `Search.IsPlateQuery` | components/ui/SearchModal.tsx:43 | definition: `^[A-Za-z0-9]{7}$` as seven alphanumeric classes; `Search.ClassifierMeaning` gives its meaning |
| `Search.ClassifierMeaning` | components/ui/SearchModal.tsx:42-43 | `isId` holds exactly for non-empty all-digit queries; `isPlate` holds exactly for 7-character all-alphanumeric queries |
| `Search.Route` | components/ui/SearchModal.tsx:45-60 | no lookup exactly when the query is neither an id nor a plate; an id query goes to `getById` with the query itself; otherwise a plate query goes to `getByPlate` with the query upper-cased |
| `Search.ClearResults` | components/ui/SearchModal.tsx:30-33 | both result slots become empty; query and busy flag are kept |
| `Search.SearchFailureMessage` | components/ui/SearchModal.tsx:63 | corrected: a failed lookup shows the server's `mensagem` when present, otherwise "Erro ao buscar veículo." |
| `Search.SearchFailureMessageAsWritten` | components/ui/SearchModal.tsx:63 | as written: the text comes from the field `mensage` |
| `Search.SearchMessageFieldTypo` | components/ui/SearchModal.tsx:63 | an error body with `mensagem` set shows only the fallback as written, and shows the server's text once corrected |
| `Search.Settle` | components/ui/SearchModal.tsx:49-67 | a resolved `getById` reply fills the single slot and a resolved `getByPlate` reply the list slot, with no alert; the other slot stays empty; a rejected lookup fills nothing and alerts "Erro" with the text line 63 computes; `loading` ends false |
| `Search.ValidateAndSearch` | components/ui/SearchModal.tsx:35-68 | an empty trimmed query is refused; no lookup exactly when the query is empty or neither id nor plate; a refused query changes nothing, and a non-empty query that is neither alerts "Formato inválido"; an id query calls `getById` with the trimmed query and a plate query `getByPlate` with it upper-cased; the resolved reply fills that lookup's slot only, and a rejection alerts "Erro" with the text read from `mensage` or the fallback |
| `Search.SearchHidesServerText` | components/ui/SearchModal.tsx:53-64 | as written, a rejected id lookup whose error body holds the server's text under `mensagem` alerts only "Erro ao buscar veículo.", while the corrected message would show that text |
| `Search.Close` | components/ui/SearchModal.tsx:107-111 | closing empties both slots and resets the query to `""` |
| `Search.AtMostOneResultInvariant` | components/ui/SearchModal.tsx:51-59 | searches and closes keep at most one of the two slots filled |
| `Search.RejectedQueryMakesNoCall` | components/ui/SearchModal.tsx:36-47 | a query that is neither an id nor a plate makes no lookup, keeps the state, and raises one of the two warnings |
| `Search.SevenDigitsRouteToId` | components/ui/SearchModal.tsx:53-55 | a 7-digit query satisfies both tests and goes to `getById` unchanged, since the id branch is tried first |
| `Search.PlateQueryUpperCased` | components/ui/SearchModal.tsx:56-59 | a plate query is looked up upper-cased: 7 characters, each `A-Z` or `0-9` |
| `Email.MatchesEmailPattern` | app/register.tsx:20 | definition: `^[^\s@]+@[^\s@]+\.[^\s@]+$` as a split at an `@` and a later `.` into three non-empty runs without whitespace or `@`; `Email.PatternIffWellFormed` gives its meaning |
| `Email.IsValidEmail` | app/register.tsx:18-21 | definition: the pattern tested on the trimmed value; `Email.ValidEmailMeaning` gives its meaning |
| `Email.PatternImpliesWellFormed` | app/register.tsx:20 | a match of the e-mail expression is well formed |
| `Email.WellFormedImpliesPattern` | app/register.tsx:20 | a well-formed address matches the e-mail expression |
| `Email.PatternIffWellFormed` | app/register.tsx:20 | the expression accepts exactly addresses with no whitespace, one `@`, a non-empty local part and a domain holding a `.` with text on both sides |
| `Email.ValidEmailMeaning` | app/register.tsx:18-21 | `isValidEmail` holds exactly when the trimmed value is well formed |
| `Email.ValidEmailOfTrimmed` | app/register.tsx:32 | applied to the already trimmed e-mail, the inner trim changes nothing |
| `Email.EmailAccepted` | app/register.tsx:20 | `"a@b.com"` matches |
| `Email.EmailWithoutDotRejected` | app/register.tsx:20 | `"a@b"` does not match |
| `Email.EmailWithTwoAtsRejected` | app/register.tsx:20 | `"a@b@c.d"` does not match |
| `Register.Answer` | app/register.tsx:44-55 | success (OK leads to `/login`) exactly for a resolved 200 or 201; other statuses show the server's `message` or "Falha ao registrar usuário"; a thrown error shows `message` or "Falha ao conectar com o servidor" |
| `Register.HandleRegister` | app/register.tsx:24-59 | an empty trimmed name, empty trimmed e-mail or empty password is refused first with "Preencha todos os campos"; a present but invalid e-mail is refused with "Por favor, insira um email válido"; a request is made exactly when all are present and the trimmed e-mail is valid; the body holds the trimmed name and e-mail and the untouched password; after a request the alert and OK route are those `Register.Answer` gives for the reply |
| `Register.PostedEmailWellFormed` | app/register.tsx:32-42 | the e-mail that is posted is well formed |
| `Register.PasswordNotTrimmed` | app/register.tsx:38-42 | the password `" x "` is posted with its spaces |
| `Api.BearerCredentials` | services/api.ts:12 | the header is `"Bearer "` followed by exactly the token |
| `Api.AuthorizationFor` | services/api.ts:10-12 | a header is attached exactly when the value under `"token"` is present and non-empty, and it is that token's Bearer credentials |
| `Api.Intercept` | services/api.ts:9-15 | a failed store read aborts the request; otherwise the same config is forwarded with only `headers.Authorization` possibly changed; it is set to the Bearer credentials when a token is stored and headers exist, and headers stay untouched otherwise |
| `Api.ParseBearer` | services/api.ts:12 | a header it accepts is `"Bearer "`, more spaces, then a `b64token` |
| `Api.BearerRoundTrip` | services/api.ts:12 | for a token in the `b64token` syntax of section 2.1 of RFC 6750, the header written parses back to that token |
| `Api.InterceptExample` | services/api.ts:11-12 | the stored token `"abc.DEF_1="` goes out as `Authorization: Bearer abc.DEF_1=` |
| `Session.Profile` | services/authService.ts:18 | `me` yields the profile itself, or the first element of an array body (nothing when the array is empty) |
| `Session.Mount` | hooks/useAuth.ts:13-15 | the hook starts with no token, no user and `loading` true |
| `Session.Init` | hooks/useAuth.ts:20-48 | a failed read leaves token and user null; no stored token leaves them as they were with only the read made; a stored token that `me` accepts becomes the token and `me`'s profile the user, the `me` request carrying its Bearer header; one that `me` rejects is removed from the store and token and user become null; `loading` ends false |
| `Session.Login` | hooks/useAuth.ts:57-75 | a rejected login is rethrown with state unchanged; a response without a token is returned with state unchanged; a token is stored under `"token"`, every other stored key keeps its value, and it becomes the token, and the profile fetch (using that token) sets the user, or null when it fails, without failing the login; a failed write is rethrown; `loading` ends false |
| `Session.Logout` | hooks/useAuth.ts:78-87 | a completed removal deletes `"token"` only and nulls token and user; a failing one is propagated with state unchanged; `loading` ends false |
| `Session.TokenMatchesStoreInvariant` | hooks/useAuth.ts:25-36 | init, login and logout all keep the in-memory token equal to the stored one whenever it is set |
| `Session.RestoreWithoutToken` | hooks/useAuth.ts:22-25 | with nothing stored, init ends with null token and user, `loading` false, and never calls `me` |
| `Session.LogoutThenRestore` | hooks/useAuth.ts:78-87 | after a completed logout, a later init finds no token, makes only the read, and stays logged out |
| `Session.LoginAuthorizesRequests` | hooks/useAuth.ts:61-63 | after a login that stored token t, the interceptor attaches `Bearer t` to every request with headers |
| `LoginScreen.HandleLogin` | app/login.tsx:17-40 | an empty e-mail or password is refused with no request; the untrimmed credentials are posted otherwise; navigation to `/vehiclelist` happens exactly when the response has a token and storing it completes, and the token is then stored under `"token"`; no token reports "Credenciais inválidas" and leaves the store alone; a rejected request shows the server's `message` or "Falha ao conectar com o servidor"; a throwing token write shows that connectivity text; `loading` ends false |
| `LoginScreen.FieldsNotTrimmed` | app/login.tsx:18-24 | e-mail and password are posted untrimmed, so a password of spaces passes the guard |
| `LoginScreen.ScreenTokenIsRestored` | app/login.tsx:26-27 | the token the screen stores is the token the hook restores on the next mount and the token the interceptor sends |

## Findings

| source | as written | input that shows it | evidently intended | confidence | as-written member | corrected member |
|---|---|---|---|---|---|---|
| components/ui/SearchModal.tsx:63 | the lookup error text is read from `err.response.data.mensage` | an error body `{ "mensagem": "Veículo não encontrado" }` shows "Erro ao buscar veículo." | read `mensagem`, the field BottomNavbar.tsx:135 and :156 read from the same backend's vehicle endpoints | medium; not executed | `Search.SearchFailureMessageAsWritten` (shown by `Search.SearchMessageFieldTypo`) | `Search.SearchFailureMessage` |

`Search.ValidateAndSearch` is the modal as written: a rejected lookup takes its text from `Search.SearchFailureMessageAsWritten`, and `Search.SearchHidesServerText` follows the discrepancy through a whole search. `Search.SearchFailureMessage` is the corrected text, with the server's message shown.

## Left out

- Rendering, styling and animation: `AnimatedButton`, the `Animated` effects, CustomButton, LoadingButton, AuthForm, AuthInput, ModalVehicles, app/index.tsx and app/_layout.tsx. None of them has behaviour to state.
- app/vehiclelist.tsx and `getActiveVehicles`: screen glue around one call. services/vehicleService.ts and services/authService.ts are modelled only as collaborator outcomes (`Reply`). The one rule carried over is `me`'s array rule (`Session.Profile`).
- utils/format.ts: it depends on JavaScript `Date` parsing and the locale-dependent `toLocaleString`.
- Unmount guards (`mounted`, `isActive`) and overlapping asynchronous calls: each operation runs to completion while mounted.
- `console` logging is not modelled. `Alert` buttons other than the registration OK route are not modelled. The `onClose` callback of the search modal is not recorded.
- JSON bodies keep only their string fields. A non-string `token`, `mensagem` or `message` is not modelled, and a `null` body is the empty map.
- A store call that throws is taken to leave the store unchanged.
- `Session.Init`, `Session.Login`: the `Authorization` value recorded on the auth calls is the one the interceptor attaches when its own store read completes. An interceptor read failure is folded into the call's rejection.
- `Text.ToUpper`: ASCII letters only. JavaScript's `toUpperCase` also maps non-ASCII letters and can change the length (`"ß"` becomes `"SS"`). This is exact wherever the input is ASCII alphanumeric (plate normalisation, the search plate branch).
- `Navbar.HandleExit`: the payload is upper-cased with `Text.ToUpper`, so non-ASCII letters in a raw exit input stay as typed.
- `Text.IsWhitespace` is the ECMAScript WhiteSpace and LineTerminator set. The Unicode `Zs` category it includes is fixed at today's members. JavaScript strings are UTF-16, and the model works on code points.
- `Api.ParseBearer` reads only the canonical scheme casing `Bearer`, the one the interceptor writes. Section 2.1 of RFC 6750 takes the scheme name case-insensitively.
- The search input's `maxLength={10}` is a widget property and is not modelled. Queries of any length are accepted by the model.
- `Register.Answer`: axios rejects non-2xx statuses by default, so in the running app the resolved non-200/201 branch only sees other 2xx codes. The model accepts any resolved status.
