# Stranger Things API training dashboard: session and victory model

A Dafny model of the client-side state machine of the "Stranger APIs" training
dashboard (`stranger-things/src/App.jsx`). An operator team logs in through a
form guarded by a team-name check and a shared security code. A
team-creation request to the game service follows. The dashboard then shows the
team's REST endpoints and polls the service until the team has escaped, when it
fetches and shows the escape key. A reset ("NEXT MISSION") returns to the
login form.

Files and modules:

- `text.dfy`, module `Text`: JavaScript's `trim` (the full ECMAScript
  whitespace and line-terminator set) and `toUpperCase` (over ASCII).
- `login.dfy`, module `Login`: the `LoginScreen` form. `Validate` holds the two
  local tests. `Submit` is the synchronous half of `handleSubmit`, up to the
  `await` on `POST /create_team`. `CreateTeamSettled` is its continuation. The
  class `LoginScreen` holds the form's state slots; its handlers are proved
  against those functions.
- `endpoints.dfy`, module `Endpoints`: the base URL, the team-creation URL the form posts to, the status and key URLs
  the poll requests, `teamIdDisplay` and the eleven-row `apiEndpoints` table.
- `dashboard.dfy`, module `Dashboard`: the dashboard's state slots as the
  value `Session`, every handler as an `Event` with its effect `Step`, traces
  (`Run`), the poll gate `PollActive` and the request a tick sends
  (`PollRequest`). The class `StrangerThingsDashboard` holds the same slots as
  fields; each handler method is proved to change them as `Step` says and to
  keep the reachable-state invariant `Consistent`.
- `app.dfy`, module `App`: the form's `onLogin` wired to `handleLogin`, and
  which view is shown.
- `wrappers.dfy`, module `Wrappers`: `Option`.

Network replies are inputs. `CreateTeamResponse` is a thrown fetch, a non-OK
status, or an OK reply with `team_id`/`team_name`. `StatusResponse` is a
thrown fetch, a non-OK status, `escaped: false`, or `escaped: true` followed
by a `KeyResponse`. A `KeyResponse` is a thrown key fetch or whatever
`escape_key` came back. A thrown fetch includes a body that is not JSON.

Three behaviours of the code are worth stating explicitly:

- The team-creation request sends the untrimmed team name; trimming is used
  only by the validation (`Submit`).
- There is no staleness guard. A status check that resolves after a reset, or
  after a win, still sets the victory data (`LateCheckAfterReset`,
  `LateCheckAfterWin`). `handleLogin` does not clear the victory data, so such
  a late win carries over to the next login and stops its poll before it starts
  (`LateWinCarriesOverToNextLogin`). So a later check can replace the key, and
  a session can read as won while unauthenticated. What is invariant is
  `Consistent`: unauthenticated sessions hold no team, and sessions that have
  not won hold no key.
- Authentication does not imply a non-empty team id. A reply without
  `team_id` still authenticates; the poll gate then stays closed.

## Model

| member | source | states |
|---|---|---|
| Text.IsWhitespace | stranger-things/src/App.jsx:19 | the characters `trim()` strips: the ECMAScript WhiteSpace and LineTerminator code points |
| Text.TrimStart | stranger-things/src/App.jsx:19 | the result is the suffix of the input after its leading whitespace, which was all whitespace, and it does not start with whitespace |
| Text.TrimEnd | stranger-things/src/App.jsx:19 | the result is the prefix of the input before its trailing whitespace, which was all whitespace, and it does not end with whitespace |
| Text.TrimBothEnds | stranger-things/src/App.jsx:19 | trimming both ends leaves no whitespace at either end and leaves nothing exactly when the input is all whitespace |
| Text.Trim | stranger-things/src/App.jsx:19 | `trim()` is no longer than its input, has no whitespace at either end, and is empty iff the input is blank |
| Text.TrimIsInfix | stranger-things/src/App.jsx:19 | `trim()` is the infix of the input between a blank prefix and a blank suffix |
| Text.UpperChar | stranger-things/src/App.jsx:20 | a-z move down by 32 code points to A-Z; every other character is kept |
| Text.ToUpper | stranger-things/src/App.jsx:20 | `toUpperCase()` over ASCII: keeps the length and upper-cases every character on its own |
| Text.ToUpperIdempotent | stranger-things/src/App.jsx:20 | upper-casing twice equals upper-casing once |
| Text.UpperCharIs | stranger-things/src/App.jsx:20 | exactly two characters upper-case to an upper-case letter: the letter and its lower-case twin |
| Text.ToUpperMatches | stranger-things/src/App.jsx:20 | a string upper-cases to an all-capitals word iff it has the same length and each position holds that letter in either case |
| Login.CodeAccepted | stranger-things/src/App.jsx:20 | the code test: the upper-cased code equals DEMOGORGON (its meaning is proved in `CodeAcceptedIff`) |
| Login.CodeAcceptedIff | stranger-things/src/App.jsx:20 | the code test accepts exactly the ten-letter mixed-case spellings of DEMOGORGON |
| Login.CodeAcceptedUpToCase | stranger-things/src/App.jsx:20 | a code is accepted iff its upper-cased form is |
| Login.Validate | stranger-things/src/App.jsx:19-20 | a blank name gives TEAM NAME REQUIRED whatever the code; a non-blank name with a wrong code gives INVALID SECURITY CLEARANCE CODE; no error iff name non-blank and code a spelling of DEMOGORGON |
| Login.Submit | stranger-things/src/App.jsx:15-28 | inputs never change; no request iff validation fails, and then the error is shown and `loading` untouched; otherwise error cleared, `loading` set, and the request posted to `/create_team` with the untrimmed name |
| Login.CreateTeamSettled | stranger-things/src/App.jsx:24-40 | `onLogin` is called iff the reply is OK, with exactly its team and the form untouched; a throw or non-OK status shows CONNECTION TO HAWKINS LAB FAILED and clears `loading` |
| Login.ValidationFailureMakesNoRequest | stranger-things/src/App.jsx:17-20 | a failed local test makes no request, shows an error and leaves `loading` as it was |
| Login.BlankNameReportedFirst | stranger-things/src/App.jsx:19-20 | with a blank name the reported error is TEAM NAME REQUIRED, whatever the code |
| Login.SubmitIgnoresCodeCase | stranger-things/src/App.jsx:20 | two codes that upper-case alike give the same request and the same form, except for the code field itself |
| Login.LowerCaseCodeAccepted | stranger-things/src/App.jsx:20 | `demogorgon` and `DEMOGORGON` are both accepted and give the same request |
| Login.FailedRequestDoesNotLogIn | stranger-things/src/App.jsx:31-39 | a sent request that throws or is not OK ends with the connection error, `loading` false and no `onLogin` call |
| Login.CreatedTeamLogsIn | stranger-things/src/App.jsx:33-34 | a valid submission answered OK calls `onLogin(team_id, team_name)` with exactly the reply's values, with no error and still loading |
| Login.LoginScreen.constructor | stranger-things/src/App.jsx:10-13 | the form starts with empty inputs, no error and not loading |
| Login.LoginScreen.ChangeTeamName | stranger-things/src/App.jsx:58 | editing the name sets only the name |
| Login.LoginScreen.ChangeAccessCode | stranger-things/src/App.jsx:62 | editing the code sets only the code |
| Login.LoginScreen.HandleSubmit | stranger-things/src/App.jsx:15-22 | the setter sequence of the synchronous half leaves the state and the request `Submit` describes |
| Login.LoginScreen.HandleCreateTeamResponse | stranger-things/src/App.jsx:24-40 | the continuation leaves the state and makes the `onLogin` call `CreateTeamSettled` describes |
| Endpoints.TeamIdDisplay | stranger-things/src/App.jsx:233 | never empty: the team id when there is one, `{team_id}` otherwise |
| Endpoints.Row | stranger-things/src/App.jsx:235-245 | a row's URL is the team prefix followed by the row's path |
| Endpoints.ApiEndpoints | stranger-things/src/App.jsx:234-246 | eleven rows, every URL starting with `/` + displayed id + `/` |
| Endpoints.EndpointsShowPlaceholder | stranger-things/src/App.jsx:233-246 | with no team id every URL starts with `/{team_id}/` |
| Endpoints.KeyRowIsPolledKey | stranger-things/src/App.jsx:218 | for a known team the "Retrieve escape key" row is `GET` and, joined to the base URL, is the URL the poll fetches the key from |
| Endpoints.StatusUrl | stranger-things/src/App.jsx:214 | the status URL of a team: base URL, `/team_status/`, the id |
| Endpoints.KeyUrl | stranger-things/src/App.jsx:218 | the key URL of a team: base URL, `/`, the id, `/key` |
| Dashboard.Step | stranger-things/src/App.jsx:188-226 | the effect of each handler; only login and reset write the authentication and team slots, only reset and a status check write the victory, only reset and start write `gameStarted`, only reset and the toggle write `isUpsideDown`, only the handbook buttons write `showHandbook`, only the copy handlers write `copied` |
| Dashboard.PollActive | stranger-things/src/App.jsx:210 | the poll gate: authenticated, non-empty team id, not won (its consequences are proved in `PollRequest`, `WonUntilReset` and `NoPollingAfterReset`) |
| Dashboard.PollRequest | stranger-things/src/App.jsx:210-214 | a tick sends a request iff authenticated, id non-empty and not won, and then it is `GET /team_status/<id>` |
| Dashboard.InitialConsistent | stranger-things/src/App.jsx:178-186 | the initial state satisfies the invariant and does not poll |
| Dashboard.StepConsistent | stranger-things/src/App.jsx:188-226 | every handler keeps the invariant: unauthenticated means no team, not won means no key |
| Dashboard.RunConsistent | stranger-things/src/App.jsx:188-226 | every sequence of handler events keeps the invariant |
| Dashboard.LoginSetsTeam | stranger-things/src/App.jsx:188-191 | `handleLogin(id, name)` sets teamData to exactly (id, name), authenticates, and changes nothing else |
| Dashboard.LoginStartsPolling | stranger-things/src/App.jsx:188-191 | logging in with a non-empty id, not yet won, makes the next tick request that id's status |
| Dashboard.ResetRestoresInitial | stranger-things/src/App.jsx:193-199 | reset gives the initial values of the five session slots, keeps `showHandbook` and `copied`, stops the poll, and is idempotent |
| Dashboard.ToggleTwice | stranger-things/src/App.jsx:201 | the toggle flips `isUpsideDown`; twice restores the whole state |
| Dashboard.FailedCheckChangesNothing | stranger-things/src/App.jsx:212-226 | a throw, a non-OK status, `escaped: false` or a failed key fetch leaves the state unchanged |
| Dashboard.EscapeWins | stranger-things/src/App.jsx:217-220 | `escaped: true` with a key sets victoryData to (true, key), changes nothing else, and closes the poll gate |
| Dashboard.OnlyEscapeWins | stranger-things/src/App.jsx:220 | nothing but a check that saw the escape and got a key turns `won` on, and the key is that key |
| Dashboard.WonUntilReset | stranger-things/src/App.jsx:209-231 | once won, every trace without a reset stays won and sends no status request |
| Dashboard.NoPollingAfterReset | stranger-things/src/App.jsx:193-210 | from an unauthenticated state, every trace without a login stays unauthenticated and sends no status request |
| Dashboard.LateCheckAfterReset | stranger-things/src/App.jsx:212-220 | a check resolving after a reset still sets won and its key, with the session unauthenticated |
| Dashboard.LateCheckAfterWin | stranger-things/src/App.jsx:212-220 | a check resolving after the win replaces the key |
| Dashboard.EscapeScenario | stranger-things/src/App.jsx:188-231 | login as T1 polls T1; `escaped: false` keeps polling; `escaped: true` with K1 wins with K1 and stops polling |
| Dashboard.StrangerThingsDashboard.TeamIdShown | stranger-things/src/App.jsx:233 | in a consistent state the displayed id is the placeholder while the login form is up, the polled id while the poll runs, and otherwise one of the two |
| Dashboard.StrangerThingsDashboard.constructor | stranger-things/src/App.jsx:178-186 | the component starts in the initial state, which satisfies the invariant |
| Dashboard.StrangerThingsDashboard.HandleLogin | stranger-things/src/App.jsx:188-191 | sets the team and the flag as `Step` says, keeping the invariant |
| Dashboard.StrangerThingsDashboard.HandleReset | stranger-things/src/App.jsx:193-199 | the five setters leave the state `Step` gives for a reset, with the poll gate closed |
| Dashboard.StrangerThingsDashboard.ToggleDimension | stranger-things/src/App.jsx:201 | flips `isUpsideDown` as `Step` says |
| Dashboard.StrangerThingsDashboard.StartGame | stranger-things/src/App.jsx:287 | sets `gameStarted` as `Step` says |
| Dashboard.StrangerThingsDashboard.OpenHandbook | stranger-things/src/App.jsx:348 | sets `showHandbook` as `Step` says |
| Dashboard.StrangerThingsDashboard.CloseHandbook | stranger-things/src/App.jsx:353 | clears `showHandbook` as `Step` says |
| Dashboard.StrangerThingsDashboard.CopyToClipboard | stranger-things/src/App.jsx:202-204 | records the copied item as `Step` says |
| Dashboard.StrangerThingsDashboard.CopyExpired | stranger-things/src/App.jsx:205 | clears the copied item as `Step` says |
| Dashboard.StrangerThingsDashboard.Tick | stranger-things/src/App.jsx:210-214 | requests the status iff authenticated, id non-empty and not won, at `/team_status/<id>` |
| Dashboard.StrangerThingsDashboard.CheckStatusSettled | stranger-things/src/App.jsx:212-226 | applies a resolved check as `Step` says, keeping the invariant |
| App.ShowsLoginScreen | stranger-things/src/App.jsx:248 | the login form is rendered exactly while unauthenticated |
| App.VictoryModalOpen | stranger-things/src/App.jsx:248-354 | the victory modal is open while the dashboard is shown and the session reads as won |
| App.AfterLoginAttempt | stranger-things/src/App.jsx:34 | an OK reply runs `handleLogin` with the reply's id and name; any failure leaves the dashboard as it was |
| App.SuccessfulLoginStartsSession | stranger-things/src/App.jsx:24-34 | a valid form answered with a team authenticates with exactly that team, leaves the login view, and polls that id unless already won |
| App.FailedLoginKeepsLoginScreen | stranger-things/src/App.jsx:36-39 | a failed request leaves the login view shown and no poll running |
| App.ExampleLogin | stranger-things/src/App.jsx:15-34 | "Ops" with `demogorgon` answered by T1 sends "Ops", authenticates as T1 and polls T1 |
| App.LateWinCarriesOverToNextLogin | stranger-things/src/App.jsx:188-191 | a win arriving after a reset survives the next login: the victory modal opens with the old key and no poll runs |

## Left out

- Rendering: JSX, CSS classes, icons, and the handbook, victory, character-card and endpoint-row markup. Only the two view conditions are kept (`ShowsLoginScreen`, `VictoryModalOpen`).
- I/O: `fetch`, JSON parsing and `console.error`. Replies are inputs of the datatypes above.
- The clipboard write in `copyToClipboard` is a browser API and is left out. Its 2000 ms timeout is the `CopyExpired` event, taken at any time.
- Timers: the 3000 ms `setInterval`. Each firing is `Tick`, which sends nothing while the gate is closed; creating and clearing the interval is covered by that gate.
- Interleaving of overlapping checks: a check is modelled by its resolution only (`StatusChecked`). It may be applied in any state, so the lemmas cover every late or overlapping resolution. The status and the key request of one check are one step.
- Text.UpperChar: maps ASCII letters only, not full Unicode case mapping. For the code test this changes nothing. The only non-ASCII characters that upper-case to ASCII letters are `ı` (to `I`), `ſ` (to `S`) and ligatures or `ß` that expand to F, I, L, S or T. None of those letters is in DEMOGORGON, so both versions accept the same codes.
- An absent `escape_key` (`undefined`) is modelled as the empty string. The victory modal treats the two alike.
- The disabled state of the inputs and the button while `loading` is not a guard in the model. The handlers may run in any state.
- Login.CreateTeamSettled: an `onLogin` that throws would also reach the catch block. `handleLogin` never throws, so that path is not modelled.
- `e.preventDefault()` and React's batching of setter calls are left out. The model applies the setters in order, which gives the state React renders.
