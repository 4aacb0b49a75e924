# Jogo em Equipe client — a Dafny model

This project models the client side of *Jogo em Equipe*, a React Native app
in which a team works through challenges (*desafios*). Each challenge has
tasks (*tarefas*) that earn points and rewards (*recompensas*) that cost
points. The model covers the logic the screens and shared hooks carry out
around the REST service:

- the `useFetchData` hook, with its `{data, loading, error}` record and one
  `fetchData` call;
- the optimistic rescue of a task or a reward in `TaskList`, `RewardList`
  and `ChallengeDetailsScreen`: mark the item, confirm with a PUT, then
  commit or roll back;
- the two-list loader of `ChallengeDetailsScreen`;
- the session in `AuthContext` and the one notification slot in
  `SnackbarContext`;
- the validation and request shaping of the three creation screens;
- the loaders of `TaskListScreen` and `HomeScreen`, with their display
  mappings: status icon, colour and label, and the avatar and greeting
  defaults.

Inputs from outside the app become parameters.

- **Stored token.** The token read from secure storage is an
  `Option<string>`. A missing token and an empty one are both rejected, as
  JavaScript's `!token` rejects them (`Common.HasToken`).
- **Network.** Each network call is answered by an `Outcome`:
  - `Ok(status, body)` for a response the code treats as successful;
  - `HttpError(status, message)` for a response that is not ok, whose body
    may carry a `message`;
  - `TransportError(message)` for anything thrown inside the `try`.
- **Token decoding.** `jwtDecode` is a partial function `Decoder` from
  token to claims.

Fire-and-forget reloads take their own `Outcome` argument and settle within
the same call. Requests are recorded in a `sent` log and `alert` calls in an
`alerts` log, so contracts can say exactly what went out.

The JavaScript built-ins the screens depend on are modelled in `JsText`:

- `trim`, with ECMAScript's full white-space set;
- `parseInt(s, 10)`: leading white space, one sign, the longest digit run,
  NaN when there are no digits;
- the decimal rendering of a status code;
- `toLowerCase`.

`toLowerCase` is modelled on the letters A–Z only. This is exact for every
comparison the app makes, because the keys `concluida`, `pendente` and
`em_progresso` are ASCII. Two non-ASCII characters lower into a–z. KELVIN
SIGN (U+212A) becomes `k`, and no key contains `k`. LATIN CAPITAL LETTER I
WITH DOT ABOVE (U+0130) becomes `i` followed by the combining dot U+0307, so
a status containing it lowers to a text with a non-ASCII character and never
equals a key. Every other non-ASCII capital lowers to a non-ASCII character.

Where the code and its intent differ, the model follows the code:

- `ChallengeDetailsScreen` sends the reward PUT with the header object in
  the body position, so that request carries no `Authorization` header
  (`ChallengeDetails.RedeemRequest`).
- Its task rescue does not reload anything.
- `RewardList` never calls the `loadData` callback it receives.
- `TaskList` reports a failed rescue with the `errorTasks` value captured
  before the PUT, not the error of the PUT. The same holds for `RewardList`
  and `errorRewards`.
- `TaskList` reads its list and sends its PUT through the same fetch unit,
  so the PUT's answer flows into the list through the sync effect
  (`TaskList.RescueThenRender`).
- `AuthProvider.login("")` sets `isAuthenticated` even though the empty
  token counts as absent on the next start. So `Login` keeps the session
  consistent with the store only for a non-empty token.

## Model

| member | source | states |
|---|---|---|
| Common.HasToken | src/hooks/useFetchData.tsx:22 | `!token` fails: a token is stored and it is not the empty string |
| Common.OrDefault | src/hooks/useFetchData.tsx:48-49 | `m \|\| fallback`: the message when it is a non-empty string, otherwise the fallback; never empty when the fallback is not |
| JsText.TrimStart | src/screens/CreateRewardScreen.tsx:30 | the result is a suffix of the input, everything dropped is white space, and the result does not start with white space |
| JsText.TrimEnd | src/screens/CreateRewardScreen.tsx:37 | the result is a prefix of the input, everything dropped is white space, and the result does not end with white space |
| JsText.Trim | src/screens/CreateRewardScreen.tsx:30 | `s.trim()` is no longer than `s` and neither starts nor ends with white space |
| JsText.TrimPadded | src/screens/CreateRewardScreen.tsx:30 | `trim()` of a text padded with white space on either side gives exactly the text back |
| JsText.IsBlank | src/screens/CreateTaskScreen.tsx:23 | `!s.trim()`: nothing is left once the white space at both ends is dropped |
| JsText.BlankIffAllSpace | src/screens/CreateTaskScreen.tsx:23 | `!s.trim()` holds exactly when every character of `s` is white space |
| JsText.DigitPrefix | src/screens/CreateRewardScreen.tsx:41 | the longest run of digits at the front of a text: all digits, and followed by a non-digit or the end |
| JsText.ParseInt | src/screens/CreateRewardScreen.tsx:41 | `parseInt(s, 10)` is NaN exactly when no digit follows the leading white space and optional sign; the value read is given by the lemmas below for bare, `+` and `-` digit runs |
| JsText.ParseIntDigits | src/screens/CreateTaskScreen.tsx:28 | a digit run followed by a non-digit or the end parses to that run's value |
| JsText.ParseIntPlusDigits | src/screens/CreateRewardScreen.tsx:41 | a plus sign before a digit run reads as the run's value, so `"+5"` is a positive count |
| JsText.ParseIntNegDigits | src/screens/CreateTaskScreen.tsx:28-29 | a minus sign before a digit run gives the negated value, which the `points <= 0` guard then rejects |
| JsText.ParseIntSkipsSpace | src/screens/CreateRewardScreen.tsx:41 | leading white space never changes what `parseInt` reads |
| JsText.ParseIntNoDigit | src/screens/CreateRewardScreen.tsx:41-42 | a text without any digit parses to NaN |
| JsText.IsPositiveCount | src/screens/CreateRewardScreen.tsx:41-42 | the check `isNaN(p) \|\| p <= 0` on `p = parseInt(s, 10)` fails: `s` reads as a whole number above zero |
| JsText.PositiveCountOfDecimal | src/screens/CreateRewardScreen.tsx:41-42 | a rendered positive number, followed by any non-digit text, passes the count check, and the same digits behind `-` do not |
| JsText.ParseIntTrailingText | src/screens/CreateRewardScreen.tsx:72 | `parseInt("12abc", 10)` is 12: text after the digits is ignored, so it reaches the request body |
| JsText.DecimalString | src/hooks/useFetchData.tsx:49 | the rendered status code is a non-empty digit string whose value is the status, with no leading zero: it starts with `0` exactly when the status is 0, and is then `"0"` |
| JsText.ParseIntDecimal | src/hooks/useFetchData.tsx:49 | parsing the rendered status code gives the status back, whatever non-digit text follows it |
| JsText.LowerChar | src/screens/TaskListScreen.tsx:63 | a capital A–Z becomes the letter 32 code points later, its lower-case form; a lowered character is never a capital, and every other character is left alone (A–Z only, see "Left out") |
| JsText.ToLower | src/screens/TaskListScreen.tsx:63 | `toLowerCase` on A–Z: keeps the length and lowers each character in place (see "Left out") |
| JsText.NoCapitalsLowerToSelf | src/screens/TaskListScreen.tsx:64-68 | a key with no capitals is its own lower-case form |
| JsText.ToLowerMatches | src/screens/TaskListScreen.tsx:63-68 | comparing `s.toLowerCase()` with a lower-case key is comparing `s` with the key up to letter case, both ways |
| Items.MapById | src/screens/TaskList.tsx:77-81 | `map(x => x.id === id ? f(x) : x)`: same length; every item with that id becomes `f` of it and every other item is untouched |
| Items.MarkTaskPending | src/screens/TaskList.tsx:77-81 | the optimistic mark sets `resgatada` on the tasks with that id only |
| Items.CommitTaskDone | src/screens/TaskList.tsx:89-95 | a confirmed task becomes `CONCLUIDA` and no longer pending; the others are untouched |
| Items.RevertTaskPending | src/screens/TaskList.tsx:100-104 | the rollback clears `resgatada` on the tasks with that id only |
| Items.MarkRewardPending | src/screens/RewardList.tsx:76-80 | the optimistic mark sets `resgatada` on the rewards with that id only |
| Items.RevertRewardPending | src/screens/RewardList.tsx:100-104 | the rollback clears `resgatada` on the rewards with that id only |
| Items.CanRescueTask | src/screens/TaskList.tsx:142-143 | a task shows the rescue button while it is `PENDENTE` and not `resgatada` |
| Items.CanRescueReward | src/screens/RewardList.tsx:128-138 | a reward shows an enabled "Resgatar" button while it is not `resgatada` |
| Items.MarkDisablesTask | src/screens/TaskList.tsx:142-143 | once marked, a task no longer offers the rescue button, so a second rescue cannot start while one is pending |
| Items.MarkDisablesReward | src/screens/RewardList.tsx:76-80 | once marked, a reward shows the badge instead of the button, so a second redemption cannot start while one is pending |
| Items.RevertUndoesTaskMark | src/screens/TaskList.tsx:77-104 | a failed rescue of a task that offered the button leaves the list exactly as it was |
| Items.CommitAfterMark | src/screens/TaskList.tsx:77-95 | mark then commit is the same as commit alone |
| Items.RevertUndoesRewardMark | src/screens/RewardList.tsx:76-104 | a failed redemption of a reward that offered the button leaves the list exactly as it was |
| Items.MarkRewardIdempotent | src/screens/RewardList.tsx:88-92 | the second `resgatada: true` on success changes nothing |
| FetchUnit.Initial | src/hooks/useFetchData.tsx:11-15 | a fresh hook holds no data, is not loading and has no error |
| FetchUnit.Started | src/hooks/useFetchData.tsx:19 | starting a call sets loading, clears the error and keeps the data |
| FetchUnit.StatusMessage | src/hooks/useFetchData.tsx:49 | `Erro na requisição: ${status}`: the text starts with that prefix, and what follows reads back as the status with `parseInt`, with no leading zero |
| FetchUnit.ErrorOf | src/hooks/useFetchData.tsx:22-64 | the error a call leaves: the no-token text, none exactly on an ok response, the body message or `Erro na requisição: <status>`, the exception message or `Erro inesperado.`; never empty |
| FetchUnit.Settled | src/hooks/useFetchData.tsx:22-64 | every settled call is idle; an ok call leaves exactly `{json, false, null}`, and any other call keeps the data |
| FetchUnit.Returned | src/hooks/useFetchData.tsx:28-63 | `fetchData` resolves to the body exactly when there is a token and the response is ok, else to null |
| FetchUnit.Sent | src/hooks/useFetchData.tsx:22-44 | no request without a token; otherwise one request to the given URL and verb, with exactly the headers `Content-Type: application/json` and `Authorization: Bearer <token>`, carrying the body only when one is given |
| FetchUnit.FetchUnit.constructor | src/hooks/useFetchData.tsx:11-15 | a new unit starts in the initial record and has sent nothing |
| FetchUnit.FetchUnit.Start | src/hooks/useFetchData.tsx:19 | the first state update, with nothing sent |
| FetchUnit.FetchUnit.Finish | src/hooks/useFetchData.tsx:20-64 | the rest of `fetchData`: result, new record and request log as the functions above describe |
| FetchUnit.FetchUnit.FetchData | src/hooks/useFetchData.tsx:17-67 | the whole call: it returns `Returned`, ends in `Settled(Started(old))` and logs `Sent` |
| SnackbarContext.Shown | src/context/SnackbarContext.tsx:31-35 | after `showSnackbar` the slot is visible with exactly that message and type |
| SnackbarContext.Hidden | src/context/SnackbarContext.tsx:37 | `hideSnackbar` changes only the visibility |
| SnackbarContext.ShowOverwrites | src/context/SnackbarContext.tsx:31-35 | last write wins: a second show erases the first |
| SnackbarContext.HideIdempotent | src/context/SnackbarContext.tsx:37 | hiding twice is hiding once |
| SnackbarContext.SnackbarProvider.constructor | src/context/SnackbarContext.tsx:27-29 | the provider starts hidden, with an empty message and type `success` |
| SnackbarContext.SnackbarProvider.Show | src/context/SnackbarContext.tsx:31-35 | the provider state becomes `Shown` of the old state; the type defaults to `error` |
| SnackbarContext.SnackbarProvider.Hide | src/context/SnackbarContext.tsx:37 | the provider state becomes `Hidden` of the old state |
| AuthContext.NameFrom | src/context/AuthContext.tsx:48-54 | the name is the token's `nome` claim, or null when decoding throws |
| AuthContext.AuthProvider.constructor | src/context/AuthContext.tsx:20-21 | the provider starts unauthenticated with no name, whatever is persisted |
| AuthContext.AuthProvider.Hydrate | src/context/AuthContext.tsx:23-43 | after the mount effect the session agrees with the stored token, and the name is decoded from it or null |
| AuthContext.AuthProvider.Login | src/context/AuthContext.tsx:45-55 | the token is stored under `userToken`, the session is authenticated, the name is decoded; for a non-empty token the session agrees with the store |
| AuthContext.AuthProvider.Logout | src/context/AuthContext.tsx:57-61 | the token is erased, the session is closed, the name is null, and the session agrees with the store |
| AuthContext.LoginThenLogout | src/context/AuthContext.tsx:45-61 | logging in and then out leaves no token and a closed session, whatever the token |
| TaskList.TaskList.constructor | src/screens/TaskList.tsx:37-46 | an empty list with a fresh fetch unit |
| TaskList.TaskList.LoadTasks | src/screens/TaskList.tsx:48-50 | one `fetchData` GET of the challenge's tasks; the list itself does not change |
| TaskList.TaskList.SyncFetched | src/screens/TaskList.tsx:63-67 | non-null fetched data replaces the list, and null data leaves it alone |
| TaskList.TaskList.RescueTask | src/screens/TaskList.tsx:75-109 | success exactly when the PUT returns a body. On success the task is done, the success snackbar shows, the list is reloaded and the parent is told once. On failure the mark is rolled back and the snackbar shows the error captured before the call, or the default |
| TaskList.RescueThenRender | src/screens/TaskList.tsx:63-105 | when the reload fails, the PUT's own body replaces the list once the sync effect runs |
| RewardList.RewardList.constructor | src/screens/RewardList.tsx:36-45 | an empty list with a fresh fetch unit |
| RewardList.RewardList.LoadRewards | src/screens/RewardList.tsx:47-49 | one `fetchData` GET of the challenge's rewards; the list itself does not change |
| RewardList.RewardList.SyncFetched | src/screens/RewardList.tsx:62-66 | non-null fetched data replaces the list, and null data leaves it alone |
| RewardList.RewardList.RescueReward | src/screens/RewardList.tsx:74-108 | success exactly when the PUT returns a body. On success the reward stays marked, the success snackbar shows and the list is reloaded. On failure the captured error or the default is shown and the mark is rolled back. `loadData` is never called |
| ChallengeDetails.ListError | src/screens/ChallengeDetailsScreen.tsx:82-92 | a list ends with no error exactly on a 200; otherwise with the body message or the list's default, never empty |
| ChallengeDetails.ListData | src/screens/ChallengeDetailsScreen.tsx:82-92 | a list is replaced by the body on a 200 and kept otherwise |
| ChallengeDetails.Loaded | src/screens/ChallengeDetailsScreen.tsx:58-102 | after `loadData` neither list is loading. A list is error-free exactly when there is a token, its own response is a 200 and the other request did not throw; it then holds the body, and otherwise it keeps its contents. The message is `Usuário não autenticado.` for both lists without a token, the two "unreachable" texts when either request throws, and otherwise each list's `ListError` (the body message or the list's default) |
| ChallengeDetails.ListsIndependent | src/screens/ChallengeDetailsScreen.tsx:82-92 | when neither request throws, the task half of the load does not depend on the reward response |
| ChallengeDetails.RedeemRequest | src/screens/ChallengeDetailsScreen.tsx:178-188 | the redemption PUT goes to the reward's URL with no headers of its own; the config object with the bearer token and the content type travels as its body |
| ChallengeDetails.ChallengeDetails.constructor | src/screens/ChallengeDetailsScreen.tsx:48-53 | empty lists, both loading, no errors |
| ChallengeDetails.ChallengeDetails.LoadData | src/screens/ChallengeDetailsScreen.tsx:58-102 | the screen state becomes `Loaded` of the old state; the two GETs go out exactly when there is a token; no alert |
| ChallengeDetails.ChallengeDetails.RescueTask | src/screens/ChallengeDetailsScreen.tsx:115-164 | no token: nothing changes. Otherwise one PUT; on a 200 the task is done and nothing is reloaded; any other status rolls back with an alert carrying the body message or the default; a throw rolls back with the connection alert |
| ChallengeDetails.ChallengeDetails.RescueReward | src/screens/ChallengeDetailsScreen.tsx:166-223 | no token: nothing changes. Otherwise one PUT. A 200 keeps the mark, alerts success and reloads both lists. A 400 alerts the body message or the default and rolls back. Any other status alerts a fixed text and rolls back. A throw alerts the connection text and rolls back |
| CreateReward.NameError | src/screens/CreateRewardScreen.tsx:30-35 | the name error is set exactly when the name is blank after trimming |
| CreateReward.CostError | src/screens/CreateRewardScreen.tsx:37-48 | a blank cost gives the required text; otherwise a cost that does not parse to a positive number gives the positive-number text; no error exactly for a positive count |
| JsText.BlankIsNotCount | src/screens/CreateRewardScreen.tsx:37-44 | a blank cost never parses to a positive count |
| CreateReward.FormValidIff | src/screens/CreateRewardScreen.tsx:28-52 | the form passes exactly when the name has a non-space character and the cost parses to a positive number |
| CreateReward.CreateRequest | src/screens/CreateRewardScreen.tsx:63-75 | a POST to `/recompensas` with exactly the bearer and content-type headers and the body `{nome, custoPontos, desafioId}` |
| CreateReward.Reply | src/screens/CreateRewardScreen.tsx:77-86 | a non-ok response alerts the body message or `Verifique os dados.`; a throw alerts the connection text |
| CreateReward.ReplySuccessIff | src/screens/CreateRewardScreen.tsx:77-86 | only an ok response is reported as a created reward |
| CreateReward.CreateRewardForm.constructor | src/screens/CreateRewardScreen.tsx:21-25 | empty fields, not loading, no errors |
| CreateReward.CreateRewardForm.ValidateFields | src/screens/CreateRewardScreen.tsx:28-48 | both field errors are set on every press, and the press is valid exactly when neither is |
| CreateReward.CreateRewardForm.Submit | src/screens/CreateRewardScreen.tsx:54-89 | no token: the `Não autenticado` alert and no request. Otherwise one POST and the alert for its outcome. Loading is false at the end either way |
| CreateReward.CreateRewardForm.HandleCreateReward | src/screens/CreateRewardScreen.tsx:27-90 | an invalid form changes neither loading nor the logs. A valid one is posted with the parsed positive cost and ends with loading false |
| CreateTask.PlanCreateTask | src/screens/CreateTaskScreen.tsx:16-42 | the token is checked first, then blank fields, then the number; a request carries the untrimmed name and the parsed points |
| CreateTask.SendIff | src/screens/CreateTaskScreen.tsx:16-42 | a request goes out exactly when there is a token, the name is not blank and the points parse to a positive number; the points sent are then positive |
| CreateTask.CreateTaskReply | src/screens/CreateTaskScreen.tsx:44-55 | a non-ok response alerts the body message or the default text; a throw alerts `Erro de conexão` |
| CreateTask.ReplySuccessIff | src/screens/CreateTaskScreen.tsx:44-55 | only an ok response is reported as a created task |
| CreateChallenge.FailureText | src/screens/CreateChallengeScreen.tsx:58-64 | the failure text starts with `Falha ao criar desafio: ` and ends with the body message when there is a non-empty one, otherwise with `Erro desconhecido` |
| CreateChallenge.CreateChallengeForm.constructor | src/screens/CreateChallengeScreen.tsx:8-17 | empty fields, not creating, the validation flag down |
| CreateChallenge.CreateChallengeForm.NomeInError | src/screens/CreateChallengeScreen.tsx:91 | the name field shows its error when validation is on and the name is empty |
| CreateChallenge.CreateChallengeForm.DescricaoInError | src/screens/CreateChallengeScreen.tsx:105 | the description field shows its error when validation is on and the description is empty |
| CreateChallenge.CreateChallengeForm.OnChangeNome | src/screens/CreateChallengeScreen.tsx:85-88 | typing non-empty text lowers the flag; the name field is then in error exactly when the flag was up and the text is empty |
| CreateChallenge.CreateChallengeForm.OnChangeDescricao | src/screens/CreateChallengeScreen.tsx:96-100 | the same for the description field |
| CreateChallenge.CreateChallengeForm.HandleCreateChallenge | src/screens/CreateChallengeScreen.tsx:19-71 | an empty field raises the flag, marks a field in error and shows the error snackbar with no request. Otherwise creation ends with `isCreating` false. No token: its own snackbar. Ok: success snackbar, flag down, fields cleared. Not ok: the failure text. A throw: the server text |
| TaskListScreen.StatusIcon | src/screens/TaskListScreen.tsx:62-73 | the icon is one of the four names the switch returns |
| TaskListScreen.StatusColor | src/screens/TaskListScreen.tsx:86-97 | the colour is green, orange, the theme's primary or gray |
| TaskListScreen.StatusLabel | src/screens/TaskListScreen.tsx:81 | every underscore becomes a space, and nothing else changes |
| TaskListScreen.IconIgnoresCase | src/screens/TaskListScreen.tsx:62-73 | each icon is chosen exactly for the statuses equal to its key up to letter case |
| TaskListScreen.ColorFollowsIcon | src/screens/TaskListScreen.tsx:62-97 | when the theme colour is none of the fixed ones, a status's colour and its icon determine each other |
| TaskListScreen.ServerStatusDone | src/screens/TaskListScreen.tsx:62-97 | the server's `CONCLUIDA` gets the check mark, in green |
| TaskListScreen.LabelHasNoUnderscore | src/screens/TaskListScreen.tsx:81 | a label never shows an underscore |
| TaskListScreen.LabelKeepsPlainStatus | src/screens/TaskListScreen.tsx:81 | a status without underscores is shown as it is |
| TaskListScreen.TaskListScreen.constructor | src/screens/TaskListScreen.tsx:21-23 | an empty list, loading, no error |
| TaskListScreen.TaskListScreen.LoadTasks | src/screens/TaskListScreen.tsx:26-56 | never loading at the end, and no error exactly when there is no token or the response is ok. No token: an alert, no request, the list kept. Ok: the list replaced. Not ok: the body message or the default. A throw: the connection text |
| HomeScreen.LoadError | src/screens/HomeScreen.tsx:29-58 | no error exactly on a token and an ok response; otherwise the no-user text, the body message or the default, or the exception message or the connection text; never empty |
| HomeScreen.AvatarLabel | src/screens/HomeScreen.tsx:133 | one character: the name's first, or `U` when the name is null or empty |
| HomeScreen.GreetingName | src/screens/HomeScreen.tsx:138 | the name itself, or `Usuário` only when the name is null |
| HomeScreen.EmptyNameDefaults | src/screens/HomeScreen.tsx:133-138 | an empty name gives the avatar `U` but is greeted as empty |
| HomeScreen.HomeScreen.constructor | src/screens/HomeScreen.tsx:24-26 | no challenges, loading, no error |
| HomeScreen.HomeScreen.LoadActiveChallenges | src/screens/HomeScreen.tsx:29-58 | never loading at the end; the error is `LoadError`; only a successful load replaces the list; the GET goes out exactly when there is a token |

## Left out

- Networking and secure storage. `fetch`, `axios` and `expo-secure-store`
  become inputs: the token option and each call's `Outcome`. There is no
  transport, no timing and no retries.
- A response body that is not valid JSON. It throws inside the `try` and is
  modelled as a `TransportError`.
- Bodies of the wrong shape. Bodies have the shape the TypeScript
  interfaces declare, so a null, falsy or non-array list body, and a
  `message` that is not a string, are not modelled.
- axios status handling. By default axios rejects every status outside
  200–299, so in `ChallengeDetailsScreen` the `status === 400` branch and
  the non-200 branches would in practice go to `catch`. The model follows
  the branches as written: `HttpError` reaches them.
- `jwtDecode` internals: decoding is the `Decoder` parameter.
- Asynchronous interleaving. Concurrent in-flight calls, React's batching
  and stale closures, and effect scheduling are not modelled. The model is
  sequential: reloads settle within the calling operation, and the sync
  effects of `TaskList` and `RewardList` are separate methods
  (`SyncFetched`).
- The transient `loading` true states between awaits. They are visible
  only during a render in between and are kept only as the first step of
  each method.
- Rendering, styles, theming, navigation (`goBack`, `navigate`),
  refresh-control state and the display of alerts and snackbars.
- `console.log` and `console.error` output.
- JsText.ParseInt: JavaScript numbers are doubles, so `parseInt` loses
  precision above 2^53. The model reads the exact integer.
- JsText.LowerChar: lowers A–Z only and leaves every other character as it
  is, where JavaScript also lowers non-ASCII capitals (É to é, Ω to ω, U+0130
  to two characters). This changes no comparison with the status keys (see
  above).
- JsText.ToLower: lowers A–Z only and keeps the length, where JavaScript
  turns U+0130 into two characters. This is exact for the comparisons with
  the ASCII status keys (see above).
- HomeScreen.AvatarLabel: `userName[0]` is a UTF-16 code unit; the model
  takes the first character.
- src/navigation/AppNavigator.tsx: a route table.
- src/components/SnackBar.tsx: presentation plus a 3000 ms auto-hide timer
  that calls `hideSnackbar`, which is modelled.
- App.tsx: composition of the providers.
- src/screens/LoginScreen.tsx and src/screens/SignUpScreen.tsx: a single
  POST that forwards the token to `login`, which is modelled.
- src/screens/TasksScreen.tsx and src/screens/RewardsScreen.tsx: static
  placeholders.
