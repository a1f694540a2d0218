# Wordle Teams: authentication callback, board entry and OAuth options

A Dafny model of three pieces of decision logic in the Wordle Teams web
application, where players record each day's Wordle answer and guesses and
compare scores within a team.

- **Authentication callback** (`AuthCallback`, `auth_callback.dfy`). The
  route `GET /auth/callback` receives either an exchange `code` or a
  `token_hash` + `type` pair. It resolves the credential with the identity
  provider, may send a sign-up event to the analytics tracker, may call the
  `handle_invited_signup` RPC, and answers with exactly one redirect. Every
  external call becomes the outcome it has for this request: it returns a
  value or it throws (`Services`). The calls the route makes are recorded in
  order as a trace of `Effect`s. `Callback` is the reference decision: one
  resolution step for both credential kinds, then one shared decision
  (`Decide`). `Get` follows the route step by step. Its two branches
  (`CodeBranch`, `TokenBranch`) repeat the post-resolution code as the route
  does, and they edit a mutable clone of the request URL (`RedirectUrl`).
  `Get` is proved equal to `Callback`, and the properties are proved as
  lemmas about `Callback`.
- **Board-entry form** (`BoardEntry`, `board_entry.dfy`). `WordleBoardForm`
  becomes the class `BoardForm`. Its fields are the six `useState` fields
  and the teams cache. There is one method per effect and handler.
  `handleSubmit` is split at its `await` into `BeginSubmit` and
  `FinishSubmit`.
- **OAuth options** (`OAuth`, `oauth.dfy`). `getRedirect` and `getCreds` are
  pure case analyses over the environment name and the provider name.

Parameters of the model stand in for code outside these files:
- `isSameDay(date!, parseISO(s.date))` becomes `sameDay`.
- `padArray`, `boardIsValid` and `updateAnswer` are passed in as functions.
- `updateAnswer(key, answer, setAnswer)` hands the new answer to the setter
  it is given (form.tsx:68). The model's `updateAnswer` returns that value instead.
- So are `DailyScore.prototype.fromDbDailyScore` and
  `Team.prototype.updatePlayerScore`.

The model assumes nothing about any of these functions.

Behaviour of the code that the model keeps as written:
- After a successful sign-in by a user who is not invited, the route
  redirects to `/me`, never to `next`. `next` is written to the path at
  lines 20 and 73 and is always overwritten before the redirect.
- `logsnag.track` is awaited inside the `try`. A throw there aborts to
  `/login-error` through the catch block, before the invitation RPC.
- A thrown `upsertBoard` leaves `submitting` set. The rest of
  `handleSubmit` does not run.
- `handleSubmit` does not test validity or `submitting` itself. Only the
  disabled submit button stands in the way of a second submission.
- The board validity rule and the answer-editing rule live in `./utils`,
  which is not part of this model. They appear only as the parameters
  `boardIsValid` and `updateAnswer`.

## Model

| member | source | states |
|---|---|---|
| `AuthCallback.Lookup` | src/app/auth/callback/route.ts:15-16 | `searchParams.get`: a value it returns comes from a pair with that name |
| `AuthCallback.Without` | src/app/auth/callback/route.ts:74-75 | `searchParams.delete`: no pair with the name is left, and nothing is added |
| `AuthCallback.WithoutConcat` | src/app/auth/callback/route.ts:21 | deleting from a concatenation deletes from each part, so the remaining pairs keep their order and their repeats |
| `AuthCallback.LookupFindsFirst` | src/app/auth/callback/route.ts:15-16 | `searchParams.get` finds a value exactly when some pair has the name, and then it is the value of the first such pair |
| `AuthCallback.WithoutKeepsOthers` | src/app/auth/callback/route.ts:74-75 | `searchParams.delete` keeps exactly the pairs with another name, and leaves the parameters unchanged when none has the name |
| `AuthCallback.LookupWithout` | src/app/auth/callback/route.ts:69-75 | deleting one parameter name does not change the lookup of any other name |
| `AuthCallback.RedirectUrl.Clone` | src/app/auth/callback/route.ts:19 | the clone starts equal to the request URL |
| `AuthCallback.RedirectUrl.SetPathname` | src/app/auth/callback/route.ts:20-26 | `redirectTo.pathname = …`, as at lines 20, 26, 59, 63, 66, 73, 115, 119, 122, 126, 134 and 141: the path is replaced and the query parameters are kept |
| `AuthCallback.RedirectUrl.Delete` | src/app/auth/callback/route.ts:21 | deleting a name removes its pairs and keeps the path |
| `AuthCallback.EventFor` | src/app/auth/callback/route.ts:30-34 | the label is `Invited User Signup` exactly when `invited === true`, whatever `last_sign_in_at` is. Otherwise it is `User Signup` exactly when `last_sign_in_at` is falsy, which includes a missing user. Otherwise there is no event |
| `AuthCallback.Decide` | src/app/auth/callback/route.ts:30-67 | the decision after a successful resolution, written once for both branches (lines 30-67 and 85-123). At most two calls follow the resolution: the tracking call, only first, and the invitation RPC, only last. A redirect it chooses is one of the three fixed paths |
| `AuthCallback.Callback` | src/app/auth/callback/route.ts:10-144 | every request gets exactly one redirect, on the request's origin, and its path is `/login-error`, `/complete-profile` or `/me` |
| `AuthCallback.Get` | src/app/auth/callback/route.ts:10-144 | the step-by-step route gives the same redirect and the same calls as `Callback` |
| `AuthCallback.CodeBranch` | src/app/auth/callback/route.ts:17-67 | the code branch (exchange, classification, tracking, RPC, redirect) agrees with `Callback` |
| `AuthCallback.TokenBranch` | src/app/auth/callback/route.ts:68-135 | the token branch (verification only when both `token_hash` and `type` are truthy) agrees with `Callback` |
| `AuthCallback.Recover` | src/app/auth/callback/route.ts:137-142 | the catch block redirects a fresh clone of the request URL to `/login-error`, with every query parameter kept |
| `AuthCallback.NextIsIgnored` | src/app/auth/callback/route.ts:15-20 | removing the `next` parameter changes neither the redirect path nor the calls made, so `next` never becomes the final path |
| `AuthCallback.CodeRejected` | src/app/auth/callback/route.ts:23-28 | a non-empty code whose exchange returns an error leads to `/login-error`. The exchange is the only call: no tracking and no RPC |
| `AuthCallback.CredentialMissing` | src/app/auth/callback/route.ts:77-135 | with no truthy code and no truthy `token_hash` + `type` pair, no call is made and the redirect is `/login-error` |
| `AuthCallback.TokenRejected` | src/app/auth/callback/route.ts:124-128 | a token whose verification returns an error leads to `/login-error` after that single call |
| `AuthCallback.TrackedIffEvent` | src/app/auth/callback/route.ts:36-51 | a tracking call is made exactly when an event label applies. It is the first call after resolution, and no later call is a tracking call, so there is exactly one. For an invited user whose tracker and RPC both return, the calls after resolution are exactly the tracking call and then the RPC |
| `AuthCallback.InviteRpcOnlyForInvited` | src/app/auth/callback/route.ts:52-56 | the invitation RPC runs exactly when `invited === true` and the tracker did not throw, with arguments `email ?? ''` and `id ?? ''` |
| `AuthCallback.ResolvedPaths` | src/app/auth/callback/route.ts:52-67 | after resolution, an RPC error gives `/login-error`, RPC success gives `/complete-profile`, and a user who is not invited goes to `/me` |
| `AuthCallback.TrackThrowAborts` | src/app/auth/callback/route.ts:37-50 | a throwing tracker sends the user to `/login-error` with all query parameters kept, before any RPC |
| `AuthCallback.BranchesAgree` | src/app/auth/callback/route.ts:85-123 | given the same user and the same tracker and RPC outcomes, the code branch and the token branch make the same calls after resolving and reach the same path |
| `AuthCallback.ParamsCleared` | src/app/auth/callback/route.ts:72-75 | the code branch removes only `code`, the token branch removes `token_hash` and `type`. Whatever throws inside the `try`, the redirect is the request URL with path `/login-error` and nothing removed |
| `AuthCallback.ResolutionThrowFails` | src/app/auth/callback/route.ts:137-142 | a throwing `exchangeCodeForSession` (line 23) or `verifyOtp` (lines 80-83) sends the user to `/login-error` with every query parameter kept, after that single call |
| `AuthCallback.RpcThrowFails` | src/app/auth/callback/route.ts:52-56 | for an invited user whose tracker returns, a throwing `handle_invited_signup` RPC sends the user to `/login-error` with every query parameter kept, after the tracking call and the RPC |
| `BoardEntry.FindFirst` | src/components/action-buttons/board-entry/form.tsx:31 | `find` (`BoardEntry.Find`) returns the first element that satisfies the predicate, and nothing exactly when no element does |
| `BoardEntry.BoardForm.CurrentTeam` | src/components/action-buttons/board-entry/form.tsx:20 | the current team is a cached team with the current team id |
| `BoardEntry.BoardForm.Scores` | src/components/action-buttons/board-entry/form.tsx:21 | the scores are those of the first player of the current team with the user's id, and they are empty when no player has that id |
| `BoardEntry.BoardForm.ScoreOnDate` | src/components/action-buttons/board-entry/form.tsx:31 | the score loaded for a date is the first cached score on the same day, and there is none exactly when no cached score is on that day |
| `BoardEntry.BoardForm.constructor` | src/components/action-buttons/board-entry/form.tsx:23-28 | the form starts with `scoreId = -1`, an empty answer, six empty guesses, submit disabled and not submitting, so the submit button (`SubmitEnabled`, the negation of the button's `disabled` expression at line 139) starts disabled |
| `BoardEntry.BoardForm.LoadScoreForDate` | src/components/action-buttons/board-entry/form.tsx:30-36 | the answer becomes the same-day score's answer or `''`. The id becomes its id or `-1`. The guesses become `padArray(score.guesses or [], 6)`. Nothing else changes |
| `BoardEntry.BoardForm.SelectDate` | src/components/action-buttons/board-entry/form.tsx:83-89 | picking a date stores it and reloads the form from the cache for that date |
| `BoardEntry.BoardForm.RecomputeSubmitDisabled` | src/components/action-buttons/board-entry/form.tsx:38-42 | with a non-empty answer, submit is disabled exactly when `boardIsValid` fails. With an empty answer the previous setting is kept |
| `BoardEntry.BoardForm.BeginSubmit` | src/components/action-buttons/board-entry/form.tsx:44-48 | submission sets `submitting`, which disables the button (`!SubmitEnabled()`), sends the current id, date, guesses and answer, and keeps the teams cache its closure captured |
| `BoardEntry.BoardForm.FinishSubmit` | src/components/action-buttons/board-entry/form.tsx:48-58 | the teams cache changes only when the result succeeds and carries a score, and then it becomes the cache captured at submission updated with that score, so a change during the `await` is overwritten. The form fields never change. Once a result arrives, `submitting` is false and the button is enabled exactly when `submitDisabled` is not set. If `upsertBoard` throws, `submitting` stays set |
| `BoardEntry.BoardForm.HandleKeyDown` | src/components/action-buttons/board-entry/form.tsx:63-70 | Tab leaves the answer unchanged. Any other key replaces it with `updateAnswer(key, answer)` |
| `BoardEntry.BoardForm.Clear` | src/components/action-buttons/board-entry/form.tsx:105-108 | the clear button empties the answer and changes nothing else |
| `BoardEntry.SubmitUncachedDate` | src/components/action-buttons/board-entry/form.tsx:74-77 | submitting for a date that has no cached score sends `scoreId = -1` |
| `BoardEntry.ClearKeepsSubmitSetting` | src/components/action-buttons/board-entry/form.tsx:108 | clearing the answer and rerunning the validity effect leaves `submitDisabled` as it was |
| `OAuth.GetRedirect` | src/app/login/oauth.tsx:13-23 | the redirect is one of the three callback URLs, and each of them ends with the callback route `/auth/callback` |
| `OAuth.RedirectByEnvironment` | src/app/login/oauth.tsx:14-21 | `preview` and `development` go to the dev host and `local` goes to localhost. Every other value, unset included, goes to production. Each direction of each case is proved |
| `OAuth.GetCreds` | src/app/login/oauth.tsx:25-51 | the provider and `redirectTo` pass through unchanged. Google alone gets `queryParams { access_type: 'offline', prompt: 'consent' }`. Azure alone gets `scopes: 'offline_access'`. Every other provider gets only `redirectTo` |
| `OAuth.LoginCreds` | src/app/login/oauth.tsx:60-61 | the credentials `OAuthLogin` signs in with always bring the user back to the callback route |

## Left out

- Network and SDK calls are not modelled: `exchangeCodeForSession`, `verifyOtp`, `supabase.rpc`, `logsnag.track`, `upsertBoard` and `signInWithOAuth`. Each one is replaced by its outcome: a returned value or a throw.
- Only the awaited calls can throw in the model. A throw from `cookies()`, `createClient` or URL parsing would also reach the catch block. That case is not modelled.
- The tracking call records the event, the email and the first and last names. Its constant fields (channel, icon, `notify`) and the `env` tag from `process.env.ENVIRONMENT` are not recorded.
- Logging (`log.error`, `console.log`) and `Sentry.captureException` are not modelled. They have no effect on the outcome.
- Dates are not modelled. `isSameDay`, `parseISO` and `toISOString` depend on the time zone. The model takes `sameDay` as a parameter and keeps the selected date as a millisecond count.
- When React runs the effects is not modelled. `LoadScoreForDate` and `RecomputeSubmitDisabled` are the effect bodies, and the caller decides when they run.
- `BoardEntry.BoardForm.Scores`: the component asserts with `!` that the current team is in the cache. The model therefore requires it (`TeamLoaded`) instead of modelling the TypeError.
- The UI is not modelled: JSX, CSS classes, `toast` messages, the click on the close button, `preventDefault`, and the browser's native form reset triggered by the clear button (`type='reset'`).
- `BoardEntry.Payload`: the `guesses` hidden input sends the array as one comma-joined string (src/components/action-buttons/board-entry/form.tsx:76). The payload keeps the sequence, so the joining, and the server's later split, are not modelled.
- The icon selection in `OAuthLogin` is presentation only.
- The month dropdown and the user-data-deletion layout are not part of this model: one is date formatting and navigation, the other is static markup.
- The helper bodies are not part of this model: `padArray`, `boardIsValid`, `updateAnswer`, `fromDbDailyScore` and `updatePlayerScore`. So no length cap or validity rule is stated for them.
