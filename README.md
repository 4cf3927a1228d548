# Client-side login gate: route guard and login form

This project models two pieces of the web client's authentication logic and
proves properties of them in Dafny.

- **The route table and its guard** (`app/frontend/src/AppRoutes.tsx`). The
  route constants and the `<Switch>` of public `Route` and guarded
  `PrivateRoute` entries are modelled, together with the `PrivateRoute` guard.
  The guard reads `authenticated` and `jailed` from the auth store and makes
  one of three decisions:
  - render the protected page;
  - redirect to the jail route `/restricted`;
  - redirect to `/login`, carrying the requested location as `state.from`.

  Its effect reports "Please log in." to the store on every evaluation where
  the user is not authenticated.
- **The login form** (`app/frontend/src/features/auth/login/LoginForm.tsx`).
  The form is a class with the three state cells `sent`, `loading` and
  `loginWithLink`. Its submit handler is split at its `await` into
  `BeginSubmit` and `FinishSubmit`. The handler:
  - sets `loading` and clears the store's error;
  - sends the sanitised username to the server;
  - dispatches on the returned login step (`INVALID_USER`, `NEED_PASSWORD`,
    `SENT_LOGIN_EMAIL`);
  - calls `passwordLogin` when the `loginWithLink` it closed over was already
    false;
  - turns a thrown error into `authError(message)`;
  - resets `loading`.

  A pure specification (`OnSubmit`, folded over many submissions by `Run`)
  states the same behaviour on values. The class methods are proved against
  it.

The auth store (`AuthContext.AuthStore`) holds `authenticated`, `jailed` and
`loading`. Its actions (`clearError`, `authError`, `passwordLogin`) are
recorded in order in `calls`. What they do inside the store is defined in
`AuthProvider`, which is not part of this model.

Behaviour of the code worth noting:
- The guard does not consult `loading`. It decides, and reports, whatever
  `loading` is.
- The login step `switch` has no default arm, so an unknown step changes no
  form state. A password login still follows it when the captured
  `loginWithLink` was false.
- `INVALID_USER` reports `COULDNT_FIND_USER` and changes no cell. A password
  login for the rejected name still follows it when the captured
  `loginWithLink` was false.
- The form has no re-submission guard of its own; only the button's
  `loading` flag signals that a submission is in flight.
- The store may hold `jailed` true while `authenticated` is false. The guard
  never looks at `jailed` in that case.

## Model

| member | source | states |
|---|---|---|
| AppRoutes.Guard | app/frontend/src/AppRoutes.tsx:155-169 | The protected page renders iff the user is authenticated and not jailed. An authenticated, jailed user is redirected to `/restricted` whatever path was asked for. An unauthenticated user is redirected to `/login` with `state.from` equal to the requested location, whatever `jailed` is, so they never reach the jail route. |
| AppRoutes.GuardEffects | app/frontend/src/AppRoutes.tsx:145-149 | An evaluation makes no store call when authenticated. Otherwise it makes exactly one call, `authError("Please log in.")`. |
| AppRoutes.EvaluatePrivateRoute | app/frontend/src/AppRoutes.tsx:141-171 | One render of `PrivateRoute` returns the guard's decision on the store's flags. It appends exactly the guard's effect to the store's calls. It leaves `authenticated`, `jailed` and `loading` unchanged. |
| AppRoutes.Table | app/frontend/src/AppRoutes.tsx:63-137 | The switch's 25 children in source order. Entry 0 is the public `/login` route, entry 6 the public `/restricted` route, entry 23 the public exact `/notfound` route, and the last entry is the catch-all redirect to `/notfound`. |
| AppRoutes.FirstMatch | app/frontend/src/AppRoutes.tsx:63-137 | The switch renders the first entry that matches the path. No earlier entry matches, and when none matches nothing is chosen. |
| AppRoutes.Navigate | app/frontend/src/AppRoutes.tsx:63-169 | The switch renders nothing iff no entry matches. A selected private entry gives the guard's decision, and a selected public page renders. A selected catch-all redirects to its target, with no location. A page renders only if its entry is public or the user is authenticated and not jailed. A redirect carries a location only when the guard sends a visitor who is not logged in to `/login`, and then it carries the requested location. |
| AppRoutes.UnmatchedGoesToNotFound | app/frontend/src/AppRoutes.tsx:133-136 | A path that no page of the table matches falls through to the catch-all and is redirected to `/notfound`, whatever the flags. |
| AppRoutes.PrivatePathGuarded | app/frontend/src/AppRoutes.tsx:153-169 | On a path the switch hands to a `PrivateRoute`, a visitor who is not logged in is redirected to `/login` with the location, an authenticated jailed user to `/restricted`, and only an authenticated, unjailed user sees the page. On a path handed to a public page, the page renders whatever the flags. |
| AppRoutes.LoginServedPublicly | app/frontend/src/AppRoutes.tsx:31-66 | `loginPasswordRoute` is `/login` followed by `/password`. Both `/login` and `/login/password` are served by the first entry, a public `Route`. |
| AppRoutes.JailServedPublicly | app/frontend/src/AppRoutes.tsx:47-84 | `/restricted` is served by the public `Jail` route. No earlier entry matches it. |
| AppRoutes.CatchAllIsLast | app/frontend/src/AppRoutes.tsx:130-136 | The table ends with the catch-all redirect to `/notfound`. Every other entry is a page. |
| AppRoutes.NotFoundServedPublicly | app/frontend/src/AppRoutes.tsx:43-136 | `/notfound` is served by the public `NotFoundPage` route, just before the catch-all. |
| AppRoutes.NoRedirectChain | app/frontend/src/AppRoutes.tsx:63-169 | Every path is handled by some entry. Following any redirect the switch produces (login, jail or not-found) lands on a public page that renders, so a guard redirect never leads into another guard. |
| AuthContext.AuthStore.constructor | app/frontend/src/AppRoutes.tsx:142-144 | A store starts with the given `authenticated`, `jailed` and `loading` and no recorded calls. |
| AuthContext.AuthStore.ClearError | app/frontend/src/features/auth/login/LoginForm.tsx:60 | `clearError()` is appended to the store's calls. |
| AuthContext.AuthStore.AuthError | app/frontend/src/features/auth/login/LoginForm.tsx:84-86 | `authError(message)` is appended to the store's calls. |
| AuthContext.AuthStore.PasswordLogin | app/frontend/src/features/auth/login/LoginForm.tsx:79-82 | `passwordLogin({username, password})` is appended to the store's calls. |
| LoginForm.Dispatch | app/frontend/src/features/auth/login/LoginForm.tsx:64-76 | `sent` becomes true only on `SENT_LOGIN_EMAIL`. `loginWithLink` becomes false only on `NEED_PASSWORD`. `INVALID_USER` reports `COULDNT_FIND_USER` and changes no cell. Any other step changes nothing. |
| LoginForm.Resume | app/frontend/src/features/auth/login/LoginForm.tsx:63-87 | After the answer, `loading` is false. A thrown error is reported with its message and changes no cell. An answer sets `sent` on `SENT_LOGIN_EMAIL` and clears `loginWithLink` on `NEED_PASSWORD`. An answer makes exactly these calls: `authError(COULDNT_FIND_USER)` only for `INVALID_USER`, then `passwordLogin` only if the captured `loginWithLink` was false, whatever this answer did to the cell. |
| LoginForm.OnSubmit | app/frontend/src/features/auth/login/LoginForm.tsx:57-89 | A submission:<br>- always ends with `loading` false;<br>- on a thrown error makes exactly `clearError`, `authError(message)` and changes no other cell;<br>- on an answer makes exactly `clearError`, then `authError(COULDNT_FIND_USER)` only for `INVALID_USER`, then `passwordLogin` only if the `loginWithLink` read at the start was false;<br>- on each step makes the cell changes of its arm;<br>- uses for `passwordLogin` the same sanitised username the server was asked about. |
| LoginForm.Run | app/frontend/src/features/auth/login/LoginForm.tsx:57-89 | Submissions one after another. An empty run changes nothing and makes no call. After at least one, `loading` is false and the first call was `clearError`. A run of n submissions makes between n and 3n store calls. |
| LoginForm.RunState | app/frontend/src/features/auth/login/LoginForm.tsx:51-87 | After any run of submissions, `loginWithLink` is false iff it began false or some answer was `NEED_PASSWORD`. `sent` is true iff it began true or some answer was `SENT_LOGIN_EMAIL`. `loading` is false once anything was submitted. |
| LoginForm.PasswordLoginInRun | app/frontend/src/features/auth/login/LoginForm.tsx:53-83 | A run calls `passwordLogin` iff some answered submission began with `loginWithLink` already false. |
| LoginForm.PasswordLoginAfterNeedPassword | app/frontend/src/features/auth/login/LoginForm.tsx:69-83 | From a fresh form, `passwordLogin` is called iff some answered submission follows an earlier `NEED_PASSWORD` answer. The `NEED_PASSWORD` answer itself never triggers it. |
| LoginForm.NeedPasswordThenResubmit | app/frontend/src/features/auth/login/LoginForm.tsx:69-83 | A first `NEED_PASSWORD` answer only clears the error and hides the link login. The next answered submission ends with `passwordLogin` using its own username and password. |
| LoginForm.InvalidUserAfterNeedPassword | app/frontend/src/features/auth/login/LoginForm.tsx:64-83 | Once the captured `loginWithLink` is false, an `INVALID_USER` answer reports `COULDNT_FIND_USER` and is then still followed by a password login for the rejected name. |
| LoginForm.ViewOf | app/frontend/src/features/auth/login/LoginForm.tsx:93-155 | The check-email notice, the disabled username field and the disabled submit button all follow `sent`. The password field and the forgot-password link follow `!loginWithLink`. The button shows loading iff the form's or the store's `loading` is set. |
| LoginForm.ViewAfterRun | app/frontend/src/features/auth/login/LoginForm.tsx:93-155 | After a run, the following hold iff some answer was `SENT_LOGIN_EMAIL`: the check-email notice shows, the username field is disabled and the submit button is disabled. The password field and the forgot-password link show iff some answer was `NEED_PASSWORD`. The button shows loading only through the store's `loading` once the run is over. |
| LoginForm.LoginForm.constructor | app/frontend/src/features/auth/login/LoginForm.tsx:51-53 | A mounted form starts with `sent` false, `loading` false and `loginWithLink` true. |
| LoginForm.LoginForm.BeginSubmit | app/frontend/src/features/auth/login/LoginForm.tsx:59-62 | Before the server is asked, `loading` is true and `clearError()` has been called. The username is sanitised once. The closed-over `loginWithLink` is kept for later, and no other cell changes. |
| LoginForm.LoginForm.FinishSubmit | app/frontend/src/features/auth/login/LoginForm.tsx:63-87 | After the answer, the cells and the store's calls are exactly those the pure handler prescribes for the captured value. |
| LoginForm.LoginForm.Submit | app/frontend/src/features/auth/login/LoginForm.tsx:57-89 | The whole handler leaves the cells and appends the store calls that `OnSubmit` gives for the answer to `checkUsername(sanitizeName(username))`. |
| LoginForm.NeedPasswordOnForm | app/frontend/src/features/auth/login/LoginForm.tsx:53-83 | On a real form object, two submissions for a user who needs a password make the calls `clearError`, `clearError`, `passwordLogin(sanitised name, password)`, in that order. |

## Left out

- Path matching is simplified. A path matches an entry when it equals the
  entry's base path. When the entry is not `exact` or has parameters, a path
  also matches if it continues the base path with `/`. Parameter patterns
  such as `:username` are not checked. So in the model `/user`, `/place`,
  `/guide`, `/discussion`, `/community` and `/group` equal their entry's base
  and reach the private page: a visitor who is not logged in meets the guard
  and its "Please log in.". In the router those patterns need a segment, so
  these paths fall to the catch-all and redirect to `/notfound` with no
  `authError`. Likewise `/passwordreset/a/b` matches the exact
  `/passwordreset/:resetToken` entry in the model but not in the router. Matching is case-sensitive and a
  trailing slash counts, whereas the router ignores case and a trailing
  slash: in the model `/MAP` and `/notfound/` fall through to the catch-all,
  while the router sends them to `MapPage` and `NotFoundPage`. The switch's
  first-match rule is kept.
- The JSX rendering of the routes and the form, Material-UI styling,
  react-hook-form registration and focus handling are not modelled. Only the
  boolean flags the form derives for its inputs and button are (`ViewOf`).
- `sanitizeName` and the server's `checkUsername` (`app/frontend/src/service/auth.ts`)
  are parameters of `Submit`, not definitions.
- The store actions are recorded as calls. Their effect on the store's state
  is defined in `AuthProvider`, which is not part of this model. So is the
  text of `COULDNT_FIND_USER`, which appears as the value `CouldntFindUser`.
- `useSafeState` / `useIsMounted` are not modelled: the form is always
  mounted, so `setLoading` always takes effect.
- Concurrency is not modelled. Each submission completes before the next one
  starts. Between them the form re-renders, so the next handler closes over
  the updated `loginWithLink`. Interleaved submissions are not covered.
- React's scheduling of the guard's `useEffect` after rendering is not
  modelled. Each evaluation is one decision plus its one effect.
- The signup flow, flow tokens and the out-of-band login link completion are
  not in the modelled files.
