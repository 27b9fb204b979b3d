# FitTrack authentication and onboarding funnel, in Dafny

A verified model of how a FitTrack account moves through the funnel:

- **anonymous**, then
- **registered but unverified**, then
- **verified but not onboarded**, then
- **active**.

It covers both sides of the funnel.

On the client (React, TypeScript) it models:

- the route guards of `App.tsx`, which decide between the loading placeholder, a redirect and the page;
- the session state machine of `context/AuthContext.tsx`;
- the session gateway of `services/authService.ts`, that is, the two-key `localStorage` store, the token-expiry check and the four remote calls;
- the HTTP interceptors of `services/api.ts`, which add the bearer header, build the error value and clear the session on 401;
- the field and form validators of `utils/validation.ts`;
- the `useForm` hook;
- the six-slot code entry of `pages/VerifyEmailPage.tsx`.

On the server (Spring, Java) it models the account state machine of `service/AuthService.java`: registration, e-mail verification with a six-digit code that expires after fifteen minutes, onboarding, login and code re-issue.

Each core source file becomes one module. `Wrappers`, `Text`, `UserJson` and `Storage` have no source file of their own: they are shared helpers, and stand-ins for what the browser and the JavaScript runtime provide.

| module | file | models |
|---|---|---|
| `Wrappers` | `wrappers.dfy` | `Option` and `Result` |
| `Text` | `text.dfy` | JavaScript and Java `trim`, ASCII lower-casing, decimal numerals and `%06d` |
| `Types` | `types.dfy` | the shared records |
| `UserJson` | `user_json.dfy` | `JSON.stringify` and `JSON.parse` of the stored user |
| `Storage` | `storage.dfy` | the browser: `localStorage` as a map, plus `window.location.href` |
| `Endpoints` | `endpoints.dfy` | the base URL and the auth endpoints |
| `Api` | `api.dfy` | the HTTP client: the request sent, and the two interceptors |
| `AuthGateway` | `auth_gateway.dfy` | the session gateway |
| `AuthContext` | `auth_context.dfy` | the session state machine |
| `Routing` | `routing.dfy` | the route guards |
| `Validation` | `validation.dfy` | the validators |
| `FormState` | `form_state.dfy` | the `useForm` hook |
| `VerifyEmail` | `verify_email.dfy` | the code-entry page |
| `Accounts` | `accounts.dfy` | the server's account state machine |

Code that changes state in place becomes a `class` whose methods carry `modifies` clauses:

- the browser store;
- the context provider, whose state changes only through `Dispatch` of the reducer;
- the form hook;
- the verification page;
- the server's service, whose repository is replaced by a map keyed by the normalised e-mail address.

Code that only computes becomes functions, and the properties that relate several calls become lemmas.

Values that come from outside the program are parameters of the operations:

| outside value | parameter |
|---|---|
| network replies | a `Reply` (delivered body, or a failure with an optional response) |
| the client clock | `nowMs` |
| the JWT payload decoder | `decode` |
| the server clock | `now`, in seconds |
| the random draw | `draw`, below 1000000 |
| the password encoder | the encoded `hash` |
| the token issuer | `jwt` |
| the authentication manager | `authenticate` |
| mail delivery | `mailOk` |

Class `Accounts.AuthService` keeps an invariant over every row of its table:

- the row is stored under its own address, in normal form;
- a verified account is enabled and has no code;
- an unverified account is disabled and has a six-digit code with an expiry;
- only a verified account has completed onboarding.

## Model

| member | source | states |
|---|---|---|
| Text.Trim | Frontend/src/utils/validation.ts:9 | the trimmed string is the slice of the input that starts after the leading blanks and is followed only by blanks; it neither starts nor ends with a blank, and it is empty exactly when every character is blank |
| Text.DecimalStringOfCanonical | Frontend/src/services/authService.ts:85 | a numeral without a leading zero is exactly the numeral printed for its value |
| Text.NormaliseIdempotent | Backend/src/main/java/com/fit_track/service/AuthService.java:52 | normalising an address that is already normalised (`toLowerCase().trim()`) changes nothing, so a stored address finds its own row |
| Text.ZeroPaddedExact | Backend/src/main/java/com/fit_track/service/AuthService.java:222 | `%0wd` of a number below 10^w is exactly w decimal digits and denotes that number |
| Text.DecimalString | Frontend/src/services/authService.ts:101 | the numeral written for an id is a non-empty digit string that denotes the id and has no leading zero |
| UserJson.StringifyIsObject | Frontend/src/services/authService.ts:83-101 | the text written for a user is a JSON object, so it is never `""` or `"null"`, which `getUser()` reads as no user |
| UserJson.Parse | Frontend/src/services/authService.ts:85 | any text that parses to a user is exactly the text written for that user, so parsing is the inverse of writing |
| UserJson.ReadNat | Frontend/src/services/authService.ts:85 | a number read is followed by a non-digit, and the text read is its shortest numeral followed by the rest |
| UserJson.ReadStringBody | Frontend/src/services/authService.ts:85 | a string read is followed by its closing quote, and the text read is its escaped form followed by the quote and the rest |
| UserJson.ParseStringify | Frontend/src/services/authService.ts:83-101 | parsing the text written for a user yields that same user: `JSON.parse(JSON.stringify(u))` equals `u` |
| Api.AuthorizeHeaders | Frontend/src/services/api.ts:18-25 | `Authorization: Bearer <token>` is added exactly when a non-empty token is stored, and no other header changes |
| Api.ToApiError | Frontend/src/services/api.ts:36-45 | the error text is never empty; the status comes from the response; without a body the text is the default; with one, `error` takes precedence over `message`, which takes precedence over the default; `message` is copied |
| Api.RejectError | Frontend/src/services/api.ts:35-54 | on 401 both session keys are removed and the page goes to `/login`; on any other failure the store and location are unchanged |
| Api.Outgoing | Frontend/src/services/api.ts:9-25 | a request goes to the base URL followed by its endpoint, carries its body unchanged, and has the default headers plus the bearer header of the stored token |
| Api.Send | Frontend/src/services/api.ts:9-55 | one `POST` through both interceptors: the request sent is the endpoint and body given, with the headers of the store before the call; a delivered body passes through with nothing changed, and every failure rejects with the built error under the 401 rule |
| AuthGateway.GetToken | Frontend/src/services/authService.ts:78-80 | a token is returned exactly when the token key is stored, and it is the stored value |
| AuthGateway.GetUser | Frontend/src/services/authService.ts:83-86 | a missing entry reads as no user; a user returned is the one whose JSON is stored; a failure can only be an unreadable entry |
| AuthGateway.IsTokenExpired | Frontend/src/services/authService.ts:109-117 | a token that cannot be decoded counts as expired, and a payload without `exp` never expires |
| AuthGateway.ExpiryInMilliseconds | Frontend/src/services/authService.ts:109-117 | a token that cannot be decoded counts as expired; otherwise it is expired exactly when `exp * 1000 < nowMs`, so an `exp` equal to now is still valid |
| AuthGateway.IsAuthenticated | Frontend/src/services/authService.ts:72-75 | true exactly when a non-empty token is stored and is not expired |
| AuthGateway.ReadBackAuthData | Frontend/src/services/authService.ts:78-102 | after `setAuthData(r)`, `getToken()` is `r.token` and `getUser()` is exactly the six-field projection of `r` |
| AuthGateway.AuthDataFrame | Frontend/src/services/authService.ts:89-107 | writing and clearing the session leave every other storage key untouched |
| AuthGateway.ClearedSession | Frontend/src/services/authService.ts:104-107 | after clearing there is no token and no user, the session is not authenticated, and clearing again changes nothing |
| AuthGateway.SetAuthData | Frontend/src/services/authService.ts:89-102 | the store becomes the old store with the token and the serialised user written, and the location is unchanged |
| AuthGateway.ClearAuthData | Frontend/src/services/authService.ts:104-107 | the store loses exactly the two session keys |
| AuthGateway.Logout | Frontend/src/services/authService.ts:66-69 | the session keys are cleared and the page goes to `/login` |
| AuthGateway.PersistIfToken | Frontend/src/services/authService.ts:51-62 | the request is the endpoint and body given; a delivered reply is persisted only when its token is non-empty, otherwise storage is unchanged; a failure rejects with the interceptor's error under the 401 rule; the location changes only on a 401 failure, to `/login` |
| AuthGateway.Login | Frontend/src/services/authService.ts:51-63 | sends the credentials to `/auth/login`; then the persistence and location rules above |
| AuthGateway.VerifyEmail | Frontend/src/services/authService.ts:24-39 | sends `{email, code}` to `/auth/verify-email`; then the persistence and location rules above |
| AuthGateway.Register | Frontend/src/services/authService.ts:13-21 | sends the registration data to `/auth/register`; returns the reply body and never writes to the store; only the 401 rule can clear it and move the page to `/login` |
| AuthGateway.ResendVerificationCode | Frontend/src/services/authService.ts:42-48 | sends `{email}` to `/auth/resend-verification`; returns the reply body and never writes to the store; only the 401 rule can clear it and move the page to `/login` |
| AuthContext.Reduce | Frontend/src/context/AuthContext.tsx:48-72 | keeps "authenticated exactly when a user is held"; `SET_LOADING` changes only `loading`; the other two actions end loading, with the given user or with none |
| AuthContext.BootState | Frontend/src/context/AuthContext.tsx:87-103 | initialization ends with loading off, authenticated exactly when a readable stored user exists and `isAuthenticated()` holds, and then with that user |
| AuthContext.BootFromEmptyStore | Frontend/src/context/AuthContext.tsx:87-103 | an empty store boots unauthenticated and not loading |
| AuthContext.BootAfterAuthData | Frontend/src/context/AuthContext.tsx:87-103 | booting after `setAuthData(r)` with a valid token authenticates with exactly `r`'s user |
| AuthContext.AuthProvider.constructor | Frontend/src/context/AuthContext.tsx:41-45 | the provider starts in `initialState` |
| AuthContext.AuthProvider.Dispatch | Frontend/src/context/AuthContext.tsx:83 | the state advances by the reducer |
| AuthContext.AuthProvider.InitializeAuth | Frontend/src/context/AuthContext.tsx:86-103 | the state becomes the boot state of the current store |
| AuthContext.AuthProvider.Login | Frontend/src/context/AuthContext.tsx:106-124 | sends the credentials to `/auth/login`; a failure ends unauthenticated; a reply with a token authenticates with its user; a reply without one persists nothing and then depends on the old store: with no user nothing is dispatched and `loading` stays true, with a stale user that user is authenticated, and an unreadable one throws and ends unauthenticated; the page moves to `/login` only on a 401 failure |
| AuthContext.AuthProvider.Register | Frontend/src/context/AuthContext.tsx:126-137 | sends the registration data to `/auth/register`; only `loading` changes and it ends false, whatever the reply; the page moves to `/login` only on a 401 failure |
| AuthContext.AuthProvider.VerifyEmail | Frontend/src/context/AuthContext.tsx:139-158 | sends `{email, code}` to `/auth/verify-email`; otherwise as login, except that failures only clear `loading` and leave who is signed in unchanged; the page moves to `/login` only on a 401 failure |
| AuthContext.AuthProvider.ResendVerificationCode | Frontend/src/context/AuthContext.tsx:160-162 | sends `{email}` to `/auth/resend-verification`; the session state is unchanged; the page moves to `/login` only on a 401 failure |
| AuthContext.AuthProvider.Logout | Frontend/src/context/AuthContext.tsx:164-167 | ends unauthenticated and not loading, with the store cleared and the page at `/login` |
| AuthContext.LogoutTwice | Frontend/src/context/AuthContext.tsx:164-167 | logging out twice leaves the same state, store and location as logging out once |
| Routing.RedirectPath | Frontend/src/App.tsx:28-33 | each of the four targets is chosen exactly in its phase: `/login` when not authenticated, `/verify-email` when unverified, `/onboarding` when not onboarded, `/dashboard` otherwise |
| Routing.RedirectPathIsPhasePath | Frontend/src/App.tsx:28-33 | `getRedirectPath()` is the canonical page of the session's phase |
| Routing.GuardRule | Frontend/src/App.tsx:43-97 | every guard shows the placeholder while loading or transitioning; otherwise it renders exactly in the phases it admits and redirects to `getRedirectPath()` in all other phases |
| Routing.ProtectedRenders | Frontend/src/App.tsx:43-55 | the dashboard renders exactly for authenticated, verified, onboarded sessions |
| Routing.EntryRenders | Frontend/src/App.tsx:57-68 | login and register render exactly when `getRedirectPath()` is `/login` |
| Routing.OnboardingRenders | Frontend/src/App.tsx:70-82 | onboarding renders exactly for verified sessions that are not yet onboarded; onboarded sessions go to the dashboard, earlier phases go back |
| Routing.VerificationRenders | Frontend/src/App.tsx:84-97 | verification renders exactly for anonymous or unverified sessions |
| Routing.Protected | Frontend/src/App.tsx:43-55 | shows the placeholder exactly while busy; any redirect goes to `getRedirectPath()`, never to the dashboard |
| Routing.Entry | Frontend/src/App.tsx:57-68 | shows the placeholder exactly while busy; any redirect goes to `getRedirectPath()`, never to `/login` |
| Routing.Onboarding | Frontend/src/App.tsx:70-82 | shows the placeholder exactly while busy; any redirect goes to `getRedirectPath()`, never to `/onboarding` |
| Routing.Verification | Frontend/src/App.tsx:84-97 | shows the placeholder exactly while busy; any redirect goes to `getRedirectPath()`, which is then `/onboarding` or `/dashboard` |
| Routing.Match | Frontend/src/App.tsx:155-206 | a declared path selects the route declared with it; the catch-all is chosen exactly for the paths no route declares |
| Routing.Element | Frontend/src/App.tsx:155-206 | a guarded route shows the placeholder exactly while busy and redirects only to `getRedirectPath()`; `/` and the catch-all redirect to `/dashboard` |
| Routing.NoSelfRedirect | Frontend/src/App.tsx:155-206 | no route redirects to itself |
| Routing.RedirectTargetRenders | Frontend/src/App.tsx:155-206 | the route named by `getRedirectPath()` renders its page |
| Routing.NavigationSettles | Frontend/src/App.tsx:155-206 | from any path, at most two redirects reach a rendered page, which is the requested one or `getRedirectPath()` |
| Validation.EmailPatternTestCorrect | Frontend/src/utils/validation.ts:1 | the one-pass scan accepts exactly the language of `^[^\s@]+@[^\s@]+\.[^\s@]+$` |
| Validation.ValidateEmail | Frontend/src/utils/validation.ts:8-22 | "required" exactly for blank input; "invalid" exactly for non-blank input outside the pattern; "too long" exactly for matches over 100 characters; valid exactly otherwise |
| Validation.PatternImpliesNonBlank | Frontend/src/utils/validation.ts:9-15 | an address the pattern accepts is never blank |
| Validation.ValidatePassword | Frontend/src/utils/validation.ts:24-38 | valid exactly for untrimmed lengths 6 to 40, with each message for its length range |
| Validation.ValidateName | Frontend/src/utils/validation.ts:40-57 | valid exactly when the trimmed name has at least 2 characters and the raw name at most 50; each message starts with the field name and fires exactly in its case |
| Validation.ValidateVerificationCode | Frontend/src/utils/validation.ts:59-73 | valid exactly for six ASCII digits; each of the three messages fires exactly in its case |
| Validation.ValidateLoginForm | Frontend/src/utils/validation.ts:75-88 | each field's entry is present exactly when its validator fails, and then holds its message; only the two keys occur; valid exactly when there are no errors |
| Validation.ValidateRegisterForm | Frontend/src/utils/validation.ts:90-114 | the same, for the four fields |
| FormState.Form.constructor | Frontend/src/hooks/useForm.ts:25-27 | starts at the initial values, with no errors and not submitting |
| FormState.Form.HandleChange | Frontend/src/hooks/useForm.ts:29-45 | sets one field; an error shown for that field is blanked, with the key kept; nothing else changes |
| FormState.Form.HandleSubmit | Frontend/src/hooks/useForm.ts:47-75 | errors from `validate` replace the error map and `onSubmit` is not called; otherwise errors are cleared and `onSubmit` receives the current values; a throw is swallowed; `isSubmitting` always ends false |
| FormState.Form.SetFieldError | Frontend/src/hooks/useForm.ts:77-82 | sets exactly one error entry |
| FormState.Form.ClearErrors | Frontend/src/hooks/useForm.ts:84-86 | empties the error map and changes nothing else |
| FormState.Form.Reset | Frontend/src/hooks/useForm.ts:88-92 | returns to the initial values, with no errors and not submitting |
| VerifyEmail.AcceptsExactlySlotValues | Frontend/src/pages/VerifyEmailPage.tsx:30-35 | the two input guards let through exactly the empty string and single digits |
| VerifyEmail.IsCodeComplete | Frontend/src/pages/VerifyEmailPage.tsx:119 | the code is complete exactly when no slot is empty |
| VerifyEmail.Filled | Frontend/src/pages/VerifyEmailPage.tsx:119 | the count of filled slots is the length exactly when `isCodeComplete` holds |
| VerifyEmail.JoinLength | Frontend/src/pages/VerifyEmailPage.tsx:71 | on well-formed slots, the joined code has one digit per filled slot |
| VerifyEmail.SixCharactersIffComplete | Frontend/src/pages/VerifyEmailPage.tsx:71-75 | the submit test "joined length is 6" is the same as `isCodeComplete` |
| VerifyEmail.CompleteCodeIsValid | Frontend/src/pages/VerifyEmailPage.tsx:71-81 | every code the page submits passes `validateVerificationCode` |
| VerifyEmail.DigitsOf | Frontend/src/pages/VerifyEmailPage.tsx:56-59 | the digit filter keeps only digits, is never longer than its input, and keeps a digit string unchanged |
| VerifyEmail.DigitsOfChar | Frontend/src/pages/VerifyEmailPage.tsx:56-59 | one character is kept exactly when it is a digit |
| VerifyEmail.DigitsOfConcat | Frontend/src/pages/VerifyEmailPage.tsx:56-59 | filtering a concatenation concatenates the filtered parts, so every digit is kept, in order |
| VerifyEmail.PasteWithSeparator | Frontend/src/pages/VerifyEmailPage.tsx:56-59 | pasting `123-456` yields the digits `123456` |
| VerifyEmail.VerifyEmailPage.constructor | Frontend/src/pages/VerifyEmailPage.tsx:8-28 | the e-mail is the URL parameter or `""`; all six slots are empty; the first input has focus; there are no messages |
| VerifyEmail.VerifyEmailPage.HandleCodeChange | Frontend/src/pages/VerifyEmailPage.tsx:30-45 | a rejected value changes nothing; an accepted one sets its slot; focus moves forward only after a digit below the last slot; the slots stay single digits or empty |
| VerifyEmail.VerifyEmailPage.HandleKeyDown | Frontend/src/pages/VerifyEmailPage.tsx:47-52 | focus moves back only on Backspace in an empty slot other than the first |
| VerifyEmail.VerifyEmailPage.HandlePaste | Frontend/src/pages/VerifyEmailPage.tsx:54-66 | six or more pasted digits fill every slot with the first six, in order, and focus the last input; fewer change nothing |
| VerifyEmail.VerifyEmailPage.HandleSubmit | Frontend/src/pages/VerifyEmailPage.tsx:68-92 | an incomplete code only sets "Please enter all 6 digits", with no request; a complete one sends the page's e-mail and the joined code to `/auth/verify-email`; a failure shows the error and empties the code; success with a token authenticates with the reply's user; a reply without a token shows no error and keeps the code, except that an unreadable stored user fails the verification and empties the code; the store and location follow the gateway's rules; `isSubmitting` ends false after a request |
| VerifyEmail.VerifyEmailPage.HandleResendCode | Frontend/src/pages/VerifyEmailPage.tsx:94-116 | without an e-mail there is no request, only the "not found" message; otherwise the page's e-mail is sent to `/auth/resend-verification`; success shows "New verification code sent!" and empties the code; failure shows the error; only the 401 rule touches the store and location; `resendLoading` ends false after a request |
| Accounts.GenerateVerificationCode | Backend/src/main/java/com/fit_track/service/AuthService.java:218-223 | the code for a draw below 10^6 is exactly six decimal digits whose value is the draw |
| Accounts.GenerateInjective | Backend/src/main/java/com/fit_track/service/AuthService.java:218-223 | different draws give different codes |
| Accounts.CodeUntrimmed | Backend/src/main/java/com/fit_track/service/AuthService.java:93 | a generated code is not blank, and trimming it changes nothing |
| Accounts.CheckCode | Backend/src/main/java/com/fit_track/service/AuthService.java:88-113 | a verified row always fails with "already verified"; the checks pass exactly for an unverified row holding the given, non-blank code with an expiry not yet passed; any failure is one of the four messages |
| Accounts.VerifyFailure | Backend/src/main/java/com/fit_track/service/AuthService.java:80-113 | "User not found" exactly when the normalised address is not stored; success means the stored code equals the trimmed code given |
| Accounts.RegisterFailure | Backend/src/main/java/com/fit_track/service/AuthService.java:46-52 | "already registered" exactly when the raw address is stored; a rejected save exactly when only its normalised form is; no failure exactly when neither is |
| Accounts.CheckCodeIff | Backend/src/main/java/com/fit_track/service/AuthService.java:88-113 | on a well-formed row the checks pass exactly for an unverified row whose code equals the given one and has not expired (a code is still good at its expiry second); "no code" never fires |
| Accounts.VerifySucceedsIff | Backend/src/main/java/com/fit_track/service/AuthService.java:80-113 | on a well-formed table verification succeeds exactly when the normalised address is found and the code checks pass |
| Accounts.VerifyOnce | Backend/src/main/java/com/fit_track/service/AuthService.java:88-121 | after a successful verification, every further attempt fails with "Email is already verified" |
| Accounts.FreshCodeWindow | Backend/src/main/java/com/fit_track/service/AuthService.java:204-206 | a freshly issued code verifies up to and including 15 minutes after issue, and is reported expired after that |
| Accounts.DuplicateCheckUsesRawAddress | Backend/src/main/java/com/fit_track/service/AuthService.java:46-52 | the duplicate check uses the address as typed: a spelling of a registered address with a leading space gets past it, while the exact spelling gets "Email is already registered!" |
| Accounts.AuthService.Register | Backend/src/main/java/com/fit_track/service/AuthService.java:44-76 | a duplicate fails and saves nothing; otherwise it saves an unverified, disabled, not-onboarded row with the normalised address, trimmed names, a fresh code and an expiry of now plus 900 seconds; a mail failure does not fail the call; the invariant is kept |
| Accounts.AuthService.VerifyEmail | Backend/src/main/java/com/fit_track/service/AuthService.java:78-130 | fails with the first failing check's message and leaves the table unchanged; otherwise marks the row verified and enabled, clears the code and expiry, and returns `emailVerified` true with the stored `profileCompleted` |
| Accounts.AuthService.CompleteOnboarding | Backend/src/main/java/com/fit_track/service/AuthService.java:132-159 | fails for unknown or unverified accounts; otherwise stores the answers, sets `profileCompleted`, and returns both flags true |
| Accounts.AuthService.Login | Backend/src/main/java/com/fit_track/service/AuthService.java:161-190 | succeeds exactly for an authenticated principal whose row exists and is verified, so every successful reply has `emailVerified` true; nothing is stored |
| Accounts.AuthService.ResendVerificationCode | Backend/src/main/java/com/fit_track/service/AuthService.java:192-216 | fails for unknown or verified accounts with the table unchanged; otherwise replaces the code and sets the expiry to now plus 900 seconds before sending, and still fails if sending fails |
| Accounts.RegisterThenVerify | Backend/src/main/java/com/fit_track/service/AuthService.java:44-130 | registering and then verifying, within 15 minutes, with the mailed code yields a verified, not-onboarded account under the normalised address |

## Left out

- Presentation is not modelled. This covers all JSX and styling, the login, register, onboarding and dashboard pages, and the dashboard widgets.
- The onboarding page's submit handler is not modelled. It converts strings with `parseFloat`/`parseInt` and calls a client `completeOnboarding` that `AuthContext.tsx` does not define.
- The `isTransitioning` flag the guards read is taken as a plain input. `AuthContext.tsx` does not provide it.
- The reducer's `default` branch is not modelled. The action datatype is closed, so that branch cannot be reached.
- `Frontend/src/constants/storage.ts` is not part of this model. The two storage keys are taken as the distinct strings "token" and "user".
- VerifyEmail.VerifyEmailPage.HandleSubmit: the page is modelled as staying mounted across the request. In the app, `verifyEmail` first sets `loading`, and `VerificationRoute` then replaces the page with the loading placeholder, which unmounts it. After a failure a fresh page is mounted, so the error message and the emptied code are set on the discarded page and never shown. After a reply without a token and with no stored user, `loading` stays true and the placeholder stays up. The contract states what the handler itself does, not what is on screen.
- Asynchrony is not modelled. Each handler runs to completion as one step: there are no interleaved requests, no React batching and no stale `useCallback` closures.
- The network and axios are replaced by a `Reply` parameter. Each request is recorded as its URL, body and headers. Timeouts (`API_TIMEOUT`) and the request interceptor's error branch are not modelled.
- `window.location.href` is recorded as the last URL assigned. The page reload it causes is not modelled.
- Route matching is exact string equality. React Router's case folding and trailing-slash handling are not modelled, and neither is the browser history (`replace`).
- The JWT payload decoder (`atob` and `JSON.parse`) is the parameter `decode`. `Date.now()` and `LocalDateTime.now()` are parameters.
- AuthGateway.IsTokenExpired: treats `exp` as a whole number of seconds. A fractional or non-numeric `exp` is not modelled.
- UserJson.Stringify: escapes only `"` and `\`. `JSON.stringify` also escapes control characters, and those are not modelled.
- UserJson.Parse: accepts only the layout `Stringify` writes. Stored text that `JSON.parse` would still read is reported as unreadable: other field orders, white space, other escapes, or extra fields.
- Validation.ValidateEmail: counts length in characters, not UTF-16 code units. The same holds for the password, name and code validators and for trimming.
- Text.LowerAscii: lower-cases ASCII letters only. Java's `toLowerCase` is Unicode- and locale-aware.
- VerifyEmail.VerifyEmailPage.HandleCodeChange: `focus` records only where the page moves the focus. Focus changes made by the user are not modelled.
- The server's password encoder, JWT service, user-details service and authentication manager are parameters. Whether the authentication manager rejects disabled accounts is up to that parameter.
- Mail delivery (`EmailService.java`) is the parameter `mailOk`. Delivered messages are recorded in `outbox`.
- `UserRepository.java` is replaced by a map keyed by the stored address. Ids are handed out in sequence from 1, and the database's generation strategy is not modelled.
- Accounts.AuthService.Register: a normalised address that is already stored, under a different raw spelling, is modelled as a rejected save (`SaveRejected`). The `User` entity's uniqueness constraint is not part of this model.
- The onboarding request's Bean Validation limits (height, age, positive weight) are not modelled. The HTTP mapping in `AuthController.java` is not modelled either. The enum fields are held as their constant names, and `Double` values as reals.
- Repository lookups (`existsByEmail`, `findByEmail`) are exact string matches. A database collation that ignores case or padding is not modelled.
- Logging is not modelled: the `console.error` calls in `AuthContext.tsx` and `useForm.ts`, and the `System.out.println` and `System.err.println` lines in `AuthService.java`. Those lines print the stored and the given verification codes to the server log.
- Accounts.AuthService.VerifyEmail: time is in whole seconds, so sub-second precision of `isAfter` is not modelled.
