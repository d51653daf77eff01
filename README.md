# ChampsFront client core in Dafny

This project models the browser side of ChampsFront, a tournament organiser:

- **Creation workflow** (`client/js/create.js`):
  - the step-1 form check: name, team count, group count, playoff places;
  - the draft kept in `window.tournamentData`;
  - the default team list and the team-name fields;
  - the Fisher–Yates shuffle of those fields;
  - the submission of the draft as a create request.
- **API state cache** (`client/js/api.js`):
  - the module-level `currentTournament` and `currentUser`;
  - the `currentTournamentId` pointer in local storage;
  - `createTournament`, `loadTournament`, `loadUserTournaments`, `saveMatchResult`, `savePlayoffMatchResult`, `initializeApp` and `refreshTournament`.
- **Session** (`client/js/auth.js`): class `Auth`, with its constructor, `login`, `register`, `logout` and `isLoggedIn`.

State that the source changes in place becomes Dafny classes:

- `Browser.LocalStorage` for `localStorage`;
- `Browser.Window` for `window.tournamentData`;
- `Api.TournamentCache` for the module state of `api.js`;
- `Session.Auth`;
- `Create.CreateForm` for the form, whose team fields are an `array<string>`.

A `CreateForm` and a `TournamentCache` share one `Window`, as the two scripts share one page. `Create.CreateForm.Wired` states this. A `TournamentCache` and an `Auth` likewise share the page's single `localStorage` when both are built on the same `LocalStorage` object; `Api.TournamentCache.SharesStorage` states this. So the `currentTournamentId` that `Session.Auth.Logout` removes is the one `Api.TournamentCache.RefreshTournament` reads.

Each `fetch` is modelled in two parts. The method returns the requests it sends (`sent`), and the reply comes in as a parameter. A reply is a 2xx body, a non-2xx body text, or a network failure. The random numbers of the shuffle are also a parameter (`picks`): one index in `[0, i]` for each step `i`.

The JavaScript primitives the code relies on are modelled exactly, for integers, in module `Strings`:

- `String.prototype.trim`, with the ECMAScript whitespace set;
- `parseInt(s, 10)`, with `None` for NaN;
- `String(n)`;
- the truthiness of a string that may be null.

`Math.floor(a / b)` is written out as `FloorDiv`, which also handles negative divisors.

The count fields carry `min` and `required` attributes (`client/js/create.js:40-42`, 72, 75), so the browser does not submit counts below 2, 1 and 1. The handler `prepareTeamNameInput` itself does not check signs. The model accepts every integer, which covers everything the browser lets through (`Create.NoGroupsNoPlayoffLimit` states what the handler does with zero groups). `initializeApp` does not check the stored tournament id against the user's list (`Api.StoredIdNotCheckedAgainstList`).

## Model

| member | source | states |
|---|---|---|
| Strings.Trim | client/js/create.js:84 | the result is the unique slice of the input with only whitespace outside it and none at either end; it is empty exactly when the input is blank |
| Strings.TrimOfUnique | client/js/create.js:84 | any two strings meeting the trim specification for one input are equal, so `trim` is determined by it |
| Strings.TrimOfTrimmed | client/js/create.js:156 | a string without surrounding whitespace is its own trim |
| Strings.TrimIdempotent | client/js/create.js:171 | trimming twice is trimming once |
| Strings.ParseInt | client/js/create.js:85-87 | `parseInt(s, 10)`: a non-empty run of digits parses to its value, and a blank text is NaN |
| Strings.DigitPrefix | client/js/create.js:85-87 | `parseInt` reads the longest run of leading decimal digits: a prefix, all digits, and maximal |
| Strings.DigitsReadWhole | client/js/create.js:85-87 | a non-empty run of digits has no leading whitespace and is read by `parseInt` in full |
| Strings.IntToString | client/js/create.js:100 | `String(n)` starts with "-" exactly for a negative n, and otherwise with a digit; it always ends with a digit |
| Strings.NatToString | client/js/create.js:100 | `String(n)` of a natural number is a non-empty run of digits whose value is n |
| Strings.ParseIntToString | client/js/create.js:85-87 | `parseInt` reads back every integer that `String` writes |
| Strings.IntToStringInjective | client/js/create.js:143 | different integers are spelled differently |
| Create.Step1Message | client/js/create.js:89-101 | every refusal has a non-empty alert text |
| Create.Step1MessagesDistinct | client/js/create.js:89-101 | two refusals with the same alert text are the same refusal, with the same maximum |
| Create.FloorDiv | client/js/create.js:98 | `Math.floor(a / b)`: q·b ≤ a < q·b + b for b > 0, and the mirrored bounds for b < 0 |
| Create.TeamsPerGroup | client/js/create.js:98-99 | `Math.floor(teamCount / groupCount)`: unbounded (Infinity or NaN) exactly when there are no groups, and otherwise the floor of the quotient for either sign of the divisor |
| Create.Validate | client/js/create.js:83-102 | on acceptance, the name is the non-empty trimmed name, the three counts are what `parseInt` reads, there are no more groups than teams, and the playoff places do not exceed floor(teams / groups) when there are groups |
| Create.IncompleteFirst | client/js/create.js:89-92 | the form is refused with "fill all fields" exactly when the name is blank or a count is not a number |
| Create.MoreGroupsSecond | client/js/create.js:93-96 | a complete form is refused for too many groups exactly when teams < groups |
| Create.PlayoffBoundExact | client/js/create.js:98-102 | with 1 ≤ groups ≤ teams, the form is accepted exactly when places ≤ teams / groups, and otherwise refused naming that maximum |
| Create.NoGroupsNoPlayoffLimit | client/js/create.js:98-99 | with zero groups, teams / 0 is Infinity or NaN and no playoff count is refused |
| Create.ParseSingleDigit | client/js/create.js:85-87 | `parseInt` of a one-digit string is that digit |
| Create.EightTeamsTwoGroups | client/js/create.js:83-102 | 8 teams in 2 groups: 4 playoff places pass, and 5 are refused with a maximum of 4 |
| Create.MergeDraft | client/js/create.js:105 | the new draft has the old draft's members plus the four settings; the settings hold the parsed values and all other members are kept |
| Create.DefaultTeamName | client/js/create.js:143-147 | the k-th field's name starts with "Team " and has no whitespace at either end, so `trim` keeps it as it is |
| Create.DefaultTeamNames | client/js/create.js:140-151 | one default name per team, "Team 1" to "Team n", and none for a count below 1 |
| Create.BuildTeamInputs | client/js/create.js:140-151 | the field-building loop produces exactly the default list |
| Create.DefaultTeamNamesDistinct | client/js/create.js:143 | two default names are equal only for the same number |
| Create.Label | client/js/create.js:171 | `value.trim() \|\| fallback` (also at line 156): the trim of a field that is not blank, and the fallback for a blank one |
| Create.LabelStable | client/js/create.js:156 | `value.trim() \|\| fallback` is never empty for a trimmed, non-empty fallback, and labelling again changes nothing |
| Create.Labels | client/js/create.js:171 | one label per field, in field order |
| Create.SubmittedNamesNonEmpty | client/js/create.js:171 | no submitted team name is empty |
| Create.DefaultsSurviveLabels | client/js/create.js:147 | untouched default fields are submitted unchanged |
| Create.BlankNamesScenario | client/js/create.js:171 | blank fields are submitted as "Unbenannt" and named ones as written |
| Create.Payload | client/js/create.js:176-181 | the create request carries the draft's name, group count and playoff places when present, plus one team per submitted name; never the team count or `teamNames` |
| Create.ReadLabels | client/js/create.js:155-156 | a fresh array holding each field's label, with "Team" for blank fields |
| Create.CopyInto | client/js/create.js:164 | every field receives the name at its position |
| Create.CreateForm.constructor | client/js/create.js:8-10 | a missing draft becomes the empty object, and an existing one is kept |
| Create.CreateForm.PrepareTeamNameInput | client/js/create.js:83-151 | a refused form shows its reason and changes nothing; an accepted one merges the settings into the draft and lays out the default team fields |
| Create.CreateForm.ShuffleTeams | client/js/create.js:154-165 | the fields end up as the Fisher–Yates shuffle of their labels, which is a permutation of those labels |
| Create.CreateForm.SubmitTeamNames | client/js/create.js:168-201 | without a draft nothing happens; otherwise the draft gets `teamNames`, a create request is sent exactly when the token passes the gate, a 2xx reply adopts the created tournament and reports success, anything else reports the failure and keeps the cache; the current user is never touched; the cached tournament stays the persisted one |
| Shuffle.Swap | client/js/create.js:161 | the two positions are exchanged and every other position is kept |
| Shuffle.FisherYates | client/js/create.js:159-162 | the list after the loop's steps i down to 1, of the same length (a permutation by `Shuffle.FisherYatesPermutes`) |
| Shuffle.Shuffled | client/js/create.js:159-162 | the whole shuffle keeps the length and the multiset of names |
| Shuffle.SwapPermutes | client/js/create.js:161 | a swap does not change the multiset of names |
| Shuffle.FisherYatesPermutes | client/js/create.js:159-162 | the whole shuffle is a permutation |
| Shuffle.FisherYatesKeepsAbove | client/js/create.js:159-162 | after step i, the positions above i are never touched again |
| Shuffle.ShuffleInPlace | client/js/create.js:159-162 | the in-place loop leaves the array as the Fisher–Yates function of its old contents, a permutation of them |
| Api.TokenMissing | client/js/api.js:36 | a token the gate accepts is truthy; the stored texts "null" and "undefined" are refused as missing |
| Api.LooksLikeJwt | client/js/api.js:41 | the token starts with "eyJ"; such a token is never one the first check refuses |
| Api.Listed | client/js/api.js:108-113 | the list of a 2xx reply, and the empty list for any other reply or a network failure |
| Api.SelectedId | client/js/api.js:189-190 | the stored id when it is truthy, else the id of the first listed tournament |
| Api.CreateErrorMessage | client/js/api.js:54-63 | the message thrown for a non-2xx create reply is never empty |
| Api.Received | client/js/api.js:84 | a call succeeds exactly on a 2xx reply |
| Api.TournamentCache.constructor | client/js/api.js:26-27 | the cache starts with no tournament and no user |
| Api.TournamentCache.Adopt | client/js/api.js:67-69 | the tournament becomes current in the cache, on the page and as the stored id, which keeps the cache consistent with storage |
| Api.TournamentCache.Exchange | client/js/api.js:133-139 | one request is sent; a 2xx reply is adopted; a failure changes nothing |
| Api.TournamentCache.CreateTournament | client/js/api.js:32-71 | a missing token, or one that is only the text null or undefined, is refused before sending; so is a token without the `eyJ` prefix; otherwise one POST with the bearer header is sent; the reply is adopted on 2xx, or fails with the server message, the body text or the default; a failure changes nothing |
| Api.TournamentCache.LoadTournament | client/js/api.js:76-95 | one GET for the id; a 2xx reply is adopted, anything else fails and changes nothing |
| Api.TournamentCache.LoadUserTournaments | client/js/api.js:100-115 | one GET of the list; anything but a 2xx reply gives the empty list |
| Api.TournamentCache.SaveMatchResult | client/js/api.js:120-144 | one POST to `/matches`; a 2xx reply is adopted, anything else fails and changes nothing |
| Api.TournamentCache.SavePlayoffMatchResult | client/js/api.js:149-173 | one POST to `/playoffs`; a 2xx reply is adopted, anything else fails and changes nothing |
| Api.TournamentCache.InitializeApp | client/js/api.js:178-204 | without a token and a stored user object, nothing is sent or changed; with an empty list, the current tournament, the draft and the stored id are cleared; otherwise the stored id (or else the first listed one) is loaded, and a failed load changes nothing |
| Api.TournamentCache.RefreshTournament | client/js/api.js:209-213 | without a stored id the result is null and nothing is sent; otherwise it is `loadTournament` of that id |
| Api.StringifiedNullIsTruthy | client/js/api.js:36 | the stored texts "null" and "undefined" are truthy, so they count as logged in, but the create gate rejects them as missing |
| Api.StoredIdNotCheckedAgainstList | client/js/api.js:189-190 | a stored id is used even when no listed tournament has it |
| Http.Bearer | client/js/api.js:49 | the header is "Bearer " followed by the stored token, or by "null" when none is stored |
| Records.AsObject | client/js/api.js:68 | the page object of a tournament is its members with `_id` set to its id |
| Records.DecodeUser | client/js/auth.js:4 | a decoded profile is exactly what `EncodeUser` writes for it; "null" and "undefined" give no profile |
| Records.EncodeUser | client/js/auth.js:31 | a serialised profile is the text of its members in braces, which `DecodeUser` reads back |
| Records.DecodeEncodeUser | client/js/auth.js:4 | a profile written to storage reads back as itself |
| Browser.Lookup | client/js/api.js:33 | `getItem` gives the stored value exactly when the key is present |
| Browser.LocalStorage.SetItem | client/js/api.js:69 | the key is set and all other keys are kept |
| Browser.LocalStorage.RemoveItem | client/js/api.js:196 | the key is removed and all other keys are kept |
| Session.FailureMessage | client/js/auth.js:34 | the failure message is never empty, because the fallback is not |
| Session.RestoreAfterWrite | client/js/auth.js:2-4 | a session written with a token and a profile is restored unchanged by a new `Auth` |
| Session.MissingUserStoresUndefined | client/js/auth.js:31 | a 2xx reply without a profile leaves the text "undefined" under `user`, from which no profile can be restored |
| Session.StoredToken | client/js/auth.js:30 | `setItem` stores a present token as it is; the stored text is truthy unless the token was the empty string |
| Session.StoredUser | client/js/auth.js:31 | a stored profile decodes back to itself; an absent one is stored as "undefined" and decodes to no profile |
| Session.BodyData | client/js/auth.js:24 | a parsed body is used as it is; an unparsable one reads as `{}`, with no token, no user and no message |
| Session.Auth.IsLoggedIn | client/js/auth.js:74-76 | no token, or an empty one, is logged out; the stored texts "null" and "undefined" count as logged in |
| Session.MissingTokenRestoresAsText | client/js/auth.js:27-30 | a 2xx reply without a token stores the text "undefined", which reads back as a truthy token |
| Session.Auth.constructor | client/js/auth.js:2-4 | the token and the user are restored from storage, so memory and storage agree |
| Session.Auth.Authenticate | client/js/auth.js:16-38 | one POST without a bearer header; on 2xx the token and user are stored (undefined as its text) and the body is returned; otherwise the server message or the fallback is returned and nothing changes; an unreachable server gives "Netzwerkfehler" |
| Session.Auth.Login | client/js/auth.js:16-38 | `Authenticate` on `/auth/login` with email and password and the login fallback; after a 2xx reply the session is logged in exactly when the body carried a non-empty token |
| Session.Auth.Register | client/js/auth.js:41-63 | `Authenticate` on `/auth/register` with username, email and password and the registration fallback; after a 2xx reply the session is logged in exactly when the body carried a non-empty token |
| Session.Auth.Logout | client/js/auth.js:65-72 | the token, the user and the stored id are removed, nothing else in storage changes, and the session is logged out and persisted |

The request builders `Api.CreateRequest`, `Api.LoadRequest`, `Api.ListRequest` and `Api.MatchRequest` model the `fetch` calls at `client/js/api.js:45-52`, 80-82, 104-106, 124-131 and 153-160. They have no rows of their own: they appear in the `sent` clauses of `Api.TournamentCache.CreateTournament`, `LoadTournament`, `LoadUserTournaments`, `SaveMatchResult`, `SavePlayoffMatchResult`, `InitializeApp` and `RefreshTournament` above. Likewise `Session.RestoredToken` and `Session.RestoredUser` model the reads at `client/js/auth.js:3-4`. They appear in the rows of `Session.Auth.constructor` and `Session.RestoreAfterWrite`.

## Left out

Whole files and external behaviour:

- `client/js/theme.js` is not part of this model. It only switches colour themes.
- The DOM is not modelled. This covers element lookup, HTML rendering, button wiring in `initCreateModule` and `initAuth`, the title element, tab switching and navigation after logout. The model keeps only the values of the form fields.
- The base URL is not modelled. It depends on `window.location`, so request paths are taken relative to the backend's `/api` base.
- `console.error` calls are left out.
- These calls are not modelled: `generateGroups`, `generateSchedule`, `updateDashboard` and `showAlert`. They are outside the core. `showAlert` is returned as an `Alert` value instead. If one of the first three throws after a successful create, the source shows the failure alert; the model reports success.
- A thrown `updateDashboard` inside `initializeApp` is not modelled.
- `getCurrentTournament` and `getCurrentUser` have no members. They only read fields, which the model exposes directly.

Values and precision:

- Integers are unbounded. `parseInt` beyond 2^53 loses precision in JavaScript, and `String(n)` switches to exponent form above 10^21; neither is modelled. Negative zero is not distinguished from zero. This matters for one input: a group count of "-0". `parseInt` gives -0; for a positive team count, `teamCount / -0` is -Infinity, and the source refuses every playoff count ("Maximal -Infinity …"). The model reads "-0" as 0 and accepts the form (`Create.NoGroupsNoPlayoffLimit`). The field's `min="1"` keeps the browser from submitting that value, so the case is unreachable from the form.
- 2xx reply bodies are assumed to be well-formed records. A body that is not JSON, and so makes `response.json()` throw, is not modelled.
- Auth reply bodies that parse to a non-object are not modelled. An example is the JSON `null`, which makes `data.token` throw and the source return "Netzwerkfehler".
- Session.AuthData: a `user` or `token` member that is JSON `null` is merged with an absent one. The source stores `null` as the text "null" and the model stores "undefined". As a token, either text reads back as a truthy token: `isLoggedIn` and `initializeApp` treat it as logged in, and only the create gate treats it as missing (`Api.StringifiedNullIsTruthy`). As a user, "null" reads as no profile, and "undefined" is the case described under `Session.RestoreAfterWrite`.
- Session.RestoreAfterWrite: the round trip is proved only for a 2xx reply that carries a profile. Without one, the source stores the text "undefined" under `user`. The next `new Auth()` then throws at `JSON.parse("undefined")`, and since `window.auth` is created when the module loads, the reload fails. The model reads that text as no profile (`Session.MissingUserStoresUndefined`) and does not capture the crash. `Session.Auth.Authenticate`, `Session.Auth.Login` and `Session.Auth.Register` likewise promise `Persisted()` only when the reply carried both a token and a profile.
- Records.DecodeUser: every stored user text that is not an object reads as no profile. This includes "undefined". In the source, `JSON.parse("undefined")` throws in the `Auth` constructor and in `initializeApp`. A stored JSON number, string or `true` would be a truthy user in `initializeApp`; the model treats it as none.
- Records: tournament and user records are opaque apart from the members the client reads. `window.tournamentData` and `currentTournament` are the same object in JavaScript, so writing `teamNames` into the draft after a tournament was loaded also changes the cached record. The model keeps them as separate values, so that aliasing is not captured.

The shuffle:

- Shuffle: the random indices are an input. Their uniform distribution, and hence the uniformity of the shuffle, is not modelled. The model proves that any choice of indices gives a permutation.
