# Demo message board: API store and feed synchronizer

This project models the two pieces of sequential logic of the demo message
board in Dafny and proves their properties.

- The API keeps every message in a module-level list. `create_message`
  refuses text that is empty or only whitespace with HTTP 400. Otherwise it
  appends a record whose id is the list's length plus one and whose text is
  the submitted text, not stripped. `get_messages` returns the whole list,
  oldest first, with its count. The model is the class `MessageStore.Store`
  over a `seq<Message>`, specified by the function `MessageStore.CreateStep`.
- The browser page keeps one `isLoading` flag. `loadMessages` returns at once
  when the flag is up. Otherwise it raises the flag, shows a loading state,
  fetches the list, shows it newest first (or an empty state, or an error
  carrying the error's message), and always lowers the flag. The submit
  handler trims the input and drops it if nothing is left. `addMessage` posts
  the text, then refreshes, then clears the input. The auto-refresh tick calls
  `loadMessages` only when the page is idle. The model is the class
  `FeedSync.Synchronizer`, specified by the pure state machine
  `FeedSync.Step`.

Each await-point splits an async function in two. The part up to the `fetch`
issues the request. The continuation is a separate event (`LoadSettled`,
`PostSettled`) that carries the network outcome as an input: `Ok(body)`,
`NotOk(status)` or `Failed(reason)`. Traces of events (`FeedSync.Run`) are
what the coalescing and the at-most-one-load properties are stated over. The
rendered list is the abstract value `View`: `Feed(entries)`, `Empty`,
`Error(reason)`, `Loading` or `Unrendered`. It is not HTML.

Python's `str.strip()` and JavaScript's `trim()` do not agree on what
whitespace is. Both sets are written out (`Text.PythonWhitespace`,
`Text.JsWhitespace`). One consequence is proved in
`FeedSync.ClientServerBlankMismatch`. A message made only of U+001F passes the
page's check and is posted, and the API then answers 400. A message made only
of U+FEFF is the other way round.

Files: `text.dfy` (stripping, decimal digits), `messages.dfy` (the message
record and the id discipline), `message_store.dfy` (the API),
`feed_view.dfy` (display ordering, `formatTimestamp`), `feed_sync.dfy` (the
synchronizer).

## Model

| member | source | states |
|---|---|---|
| `Messages.ConsecutiveIdsDistinct` | cluster/apps/demo-app/api/main.py:52 | with ids 1..n in list order, two records have the same id exactly when they are the same position |
| `MessageStore.CreateStep` | cluster/apps/demo-app/api/main.py:46-62 | the create is refused exactly when the text is all Python whitespace (empty included); a refusal is status 400 with detail "Message text cannot be empty" and leaves the store as it was; an accepted create appends one record at the end, earlier records unchanged, with id = old length + 1 and the text exactly as submitted, and the response's data is that record |
| `MessageStore.CreatePreservesIds` | cluster/apps/demo-app/api/main.py:51-57 | a create on a store whose ids are 1..n leaves ids 1..n or 1..n+1 |
| `MessageStore.ReplayFromEmpty` | cluster/apps/demo-app/api/main.py:46-57 | after any series of creates from the empty list, the store holds exactly the accepted texts, unstripped, in submission order, with ids 1..n |
| `MessageStore.InterleavedCreatesShareId` | cluster/apps/demo-app/api/main.py:51-57 | two creates that both read the length before either appends give two records the same id, and the list no longer has ids 1..n |
| `MessageStore.Store.constructor` | cluster/apps/demo-app/api/main.py:20 | the store starts empty |
| `MessageStore.Store.Create` | cluster/apps/demo-app/api/main.py:46-62 | the new list and the response are those of `CreateStep` on the old list; the ids stay 1..n |
| `MessageStore.Store.List` | cluster/apps/demo-app/api/main.py:37-43 | returns the whole store in insertion order with count equal to its length, and modifies nothing |
| `Text.StripSlices` | cluster/apps/demo-app/api/main.py:48 | stripping keeps the middle slice of the text: what is cut at either end is whitespace, and a non-empty result starts and ends with a non-whitespace character |
| `Text.StripEmptyIffBlank` | cluster/apps/demo-app/api/main.py:48 | stripping leaves nothing exactly when every character is whitespace (both directions) |
| `Text.Strip` | cluster/apps/demo-app/api/main.py:48 | the reference definition of stripping that the lemmas above are about: the result is no longer than the input and, when non-empty, starts and ends with a non-whitespace character |
| `Text.DecimalRoundTrip` | cluster/apps/demo-app/frontend/app.js:131-132 | the digits printed for a number read back as that number |
| `FeedView.Reverse` | cluster/apps/demo-app/frontend/app.js:73 | the reversed list has the same length and holds at position i the element at position n-1-i |
| `FeedView.ReverseInvolutive` | cluster/apps/demo-app/frontend/app.js:73 | reversing twice gives back the retrieved order |
| `FeedView.ReversedCopy` | cluster/apps/demo-app/frontend/app.js:73 | copying the list into a fresh array and reversing the copy in place yields the reversed list; the input is a value and stays as it was |
| `FeedView.Display` | cluster/apps/demo-app/frontend/app.js:62-85 | an empty list renders the empty state and only an empty list does; a non-empty list renders a feed with one entry per message, in exactly reversed order |
| `FeedView.NewestFirst` | cluster/apps/demo-app/frontend/app.js:72-73 | for a list with the API's ids 1..n, the feed shows strictly decreasing ids |
| `FeedView.AgeOf` | cluster/apps/demo-app/frontend/app.js:124-133 | a difference below 60000 ms, negative ones included, is "just now"; 60000 up to 3600000 is the minutes bucket with minutes in 1..59 and minutes*60000 <= diff < (minutes+1)*60000 |
| `FeedView.FormatTimestamp` | cluster/apps/demo-app/frontend/app.js:119-133 | a difference below 60000 ms, negative ones included, gives "just now"; from 60000 up to 3600000 it gives the decimal floor(diff/60000) followed by " min ago"; from an hour on the text comes from the calendar branches, which the model leaves out (None) |
| `FeedView.MinutesLabel` | cluster/apps/demo-app/frontend/app.js:130-133 | in the minutes bucket the text is decimal digits followed by " min ago", and the digits read back as floor(diff/60000), between 1 and 59 |
| `FeedView.AgeMonotone` | cluster/apps/demo-app/frontend/app.js:124-133 | a larger difference never goes back to "just now" and never shows fewer minutes |
| `FeedSync.CoalescedWhileBusy` | cluster/apps/demo-app/frontend/app.js:34 | while a load is in progress, any trace of refresh clicks and ticks is possible and changes nothing: no request, no state change |
| `FeedSync.Step` | cluster/apps/demo-app/frontend/app.js:33-175 | the reference state machine the lemmas and the class are about: each event appends at most one request and never rewrites earlier ones; a refresh click or a tick during a load changes nothing; a delivered load response always lowers the flag |
| `FeedSync.SettleReleasesFlag` | cluster/apps/demo-app/frontend/app.js:39-58 | when the load settles, successfully or not, the flag is down and no request is issued; the list shows an error exactly when the load failed, "Failed to fetch messages" for a non-ok status and the error's own message for a failure; an ok load shows the list as `Display` renders it |
| `FeedSync.StepCountsLoads` | cluster/apps/demo-app/frontend/app.js:33-40 | one event issues a GET exactly when it raises the flag, and delivers a load response exactly when it lowers it |
| `FeedSync.RunCountsLoads` | cluster/apps/demo-app/frontend/app.js:33-58 | over any possible trace, GETs issued plus the flag before equal GETs before plus responses delivered plus the flag after |
| `FeedSync.AtMostOneLoadInFlight` | cluster/apps/demo-app/frontend/app.js:33-58 | from the initial page, the GETs issued are the responses delivered plus one if the flag is up: at most one retrieval is ever outstanding |
| `FeedSync.BlankSubmitIsNoOp` | cluster/apps/demo-app/frontend/app.js:160-161 | when the trimmed input is empty the submit handler changes nothing and posts nothing |
| `FeedSync.SubmitPostsTrimmed` | cluster/apps/demo-app/frontend/app.js:160-163 | otherwise it issues exactly one POST carrying the trimmed text, and nothing else changes |
| `FeedSync.FailedPostKeepsInput` | cluster/apps/demo-app/frontend/app.js:98-115 | a failed POST adds one alert "Error adding message: " plus the error's message ("Failed to add message" for a non-ok status), and leaves the input, the list, the flag and the requests as they were |
| `FeedSync.CoalescedPostClearsInput` | cluster/apps/demo-app/frontend/app.js:104-108 | a successful POST while a load is in progress issues no refresh, yet clears the input at once |
| `FeedSync.PostRefreshesBeforeClearing` | cluster/apps/demo-app/frontend/app.js:104-108 | a successful POST on an idle page issues the GET and leaves the input as it was, with `addMessage` waiting; the input is cleared only when that load settles, and it is cleared whether the load succeeds or fails |
| `FeedSync.SubmitRoundTrip` | cluster/apps/demo-app/frontend/app.js:157-164 | on an idle page with non-blank input, submit then a successful POST then a successful load issue exactly one POST with the trimmed text followed by exactly one GET, and leave the input empty, the flag down and the new list shown |
| `FeedSync.StepPreservesInv` | cluster/apps/demo-app/frontend/app.js:157-164 | every event keeps the invariant: each POST carries non-empty text with no whitespace at either end, and an `addMessage` waiting for a load implies the load is in progress |
| `FeedSync.RunPreservesInv` | cluster/apps/demo-app/frontend/app.js:157-164 | every possible trace keeps that invariant |
| `FeedSync.ReachableInv` | cluster/apps/demo-app/frontend/app.js:14 | every page state reachable from the initial one satisfies the invariant |
| `FeedSync.ClientServerBlankMismatch` | cluster/apps/demo-app/frontend/app.js:160 | the page's trim and the API's strip disagree: U+001F is not blank for the page but blank for the API, and U+FEFF the other way round |
| `FeedSync.Synchronizer.constructor` | cluster/apps/demo-app/frontend/app.js:14 | the page starts idle, with nothing sent, nothing rendered and an empty input |
| `FeedSync.Synchronizer.LoadMessages` | cluster/apps/demo-app/frontend/app.js:33-40 | a GET goes out exactly when the flag was down; when it was up nothing changes; otherwise the flag is up and the loading state is shown |
| `FeedSync.Synchronizer.DisplayMessages` | cluster/apps/demo-app/frontend/app.js:62-85 | the list area becomes `Display` of the retrieved list and nothing else changes |
| `FeedSync.Synchronizer.LoadSettled` | cluster/apps/demo-app/frontend/app.js:42-58 | the flag ends down on every outcome, and the new state is the state machine's step for the response |
| `FeedSync.Synchronizer.AddMessage` | cluster/apps/demo-app/frontend/app.js:88-96 | one POST with the given text is issued and awaited, nothing else changes |
| `FeedSync.Synchronizer.PostSettled` | cluster/apps/demo-app/frontend/app.js:98-115 | the new state is the state machine's step for the POST's outcome |
| `FeedSync.Synchronizer.Submit` | cluster/apps/demo-app/frontend/app.js:157-164 | the new state is the state machine's step for a submit |
| `FeedSync.Synchronizer.Refresh` | cluster/apps/demo-app/frontend/app.js:166-168 | the new state is the state machine's step for a refresh click |
| `FeedSync.Synchronizer.Tick` | cluster/apps/demo-app/frontend/app.js:171-175 | `loadMessages` is called exactly when the flag was down, and the new state is the step for a tick |

## Left out

- `MessageStore.Store.Create`: each create is one atomic step. FastAPI runs plain-`def` handlers such as `create_message` on a thread pool, so two requests can both read `len(messages)` before either appends, and both records then get the same id (`MessageStore.InterleavedCreatesShareId`). The ids-are-1..n property of `Store.Create` and `MessageStore.ReplayFromEmpty` holds only when creates are handled one at a time.
- `fetch`, `response.json()`, `checkApiStatus` and the choice of `API_URL`: network I/O. Their outcomes are inputs (`Response`). A `response.json()` that fails, and a body without a `messages` array (which makes `displayMessages` throw), both count as `Failed` with the error's message.
- DOM updates (`innerHTML`, `classList`, `textContent`), `console` output, and the text of `alert` beyond the message it carries. The list area is the abstract `View`.
- `escapeHtml`: the browser does the escaping, which is a foreign call. No escaping property is claimed. `error.message` and `msg.hostname` are interpolated unescaped anyway.
- The calendar branches of `formatTimestamp` (`toDateString`, `toLocaleTimeString`, `toLocaleString`) and `new Date()`. These are locale and clock library behaviour. The difference is an integer input. `FormatTimestamp` answers `None` where those branches would run. An unparseable timestamp gives a NaN difference, which falls through to those branches; that case is not modelled.
- The `setInterval` timer and real interleaving. Ticks, clicks, edits and response deliveries are discrete events in one sequence. The code that runs between two awaits (including the microtask that resumes `addMessage` after a dropped `loadMessages`) is one step.
- The initial `checkApiStatus()` call before the first load. The first load itself is a `Refresh` event.
- The user typing into the input box is the event `Edit`; it has no counterpart in the script.
- FastAPI routing, CORS, uvicorn, the `/` and `/health` probes: framework glue. Pydantic refuses a body without a string `text` (status 422) before `create_message` runs; that is not modelled.
- `datetime.now().isoformat()` and the `HOSTNAME` variable: parameters of `Create` and `List`.
- `get_messages` hands out the live list, which FastAPI serializes at once. The model returns the list's value, a snapshot.
- JavaScript strings are UTF-16 code units and Python strings are code points; the model's `char` is a Unicode scalar value, so unpaired surrogates are not modelled.
- `src/otel.js` and `webpack.config.js`: bundling and tracing setup, no logic.
