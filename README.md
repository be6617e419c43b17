# Ultra Chat client state, modelled in Dafny

Ultra Chat is a single-page chat client. A login form collects a display
profile. A chat view streams replies from a hosted language model. A
dashboard shows mocked usage analytics. All state lives in two browser
stores: the long-lived `localStorage` and the tab-lived `sessionStorage`.
This project models the state-update rules under the rendering and proves
what they promise:

- the session manager (user and transcript in the two stores);
- the analytics aggregator (a seeded counter record, three read-modify-write
  trackers, a running mean over `real`);
- the chat controller's send (guard, optimistic user message, placeholder
  rewritten by id as fragments accumulate, latency report or fixed error
  message, `isTyping` reset);
- the mapping of the transcript to the model request;
- the application shell (startup, theme, login, logout, route table);
- the login form's validators and the user it builds;
- the dashboard's live-user tick and tiles.

Files, one module each: `types.dfy` (records), `storage.dfy` (the two
stores as the class `Storage.Stores`, with typed values), `session_service.dfy`,
`analytics_service.dfy`, `gemini_service.dfy`, `text.dfy` (`trim` and decimal
ids), `chat_page.dfy`, `app.dfy`, `login_page.dfy`, `dashboard_page.dfy`.

Both services in the source work on the one global `localStorage`, so both
take the same injected `Stores` object, and the shell and the chat view hold
it as a field. Each handler that updates state in place is a class method
with a `modifies` clause. Its `ensures` gives the whole new state in terms
of the old one, using specification functions (`AfterVisit`, `Transcript`,
`WithContent`, …). The lemmas beside those functions carry the properties:
the running mean, the growing fragment text, the route table having no
second redirect, and the bounded random walk.

Clock readings, `Math.random` and the operating system's theme preference
are parameters. The model stream is the `Reply` datatype. Either it fails
before opening, or it yields a finite fragment sequence and then ends or
fails.

The running average stays weighted by the stored message count, which the
seed starts at 4520. After n samples it is therefore not their plain mean.
`AnalyticsService.RunningMean` states the weighted mean.
`AnalyticsService.PlainMean` gives the plain mean from a count of zero.

## Model

| member | source | states |
|---|---|---|
| SessionService.SetUser | services/sessionService.ts:8-10 | the user is stored under the user key, overwriting any earlier one; the tab-lived store is untouched; reading back yields that user |
| SessionService.GetUser | services/sessionService.ts:12-15 | a missing user key reads as no user; otherwise the stored user |
| SessionService.GetMessages | services/sessionService.ts:17-20 | a missing transcript key reads as the empty list; otherwise the stored list |
| SessionService.SaveMessages | services/sessionService.ts:22-24 | the transcript is stored under its key in the tab-lived store only; reading back yields it |
| SessionService.ClearAll | services/sessionService.ts:26-29 | exactly the user key and the transcript key are removed; afterwards there is no user and the transcript is empty |
| SessionService.ClearAllTwice | services/sessionService.ts:26-29 | clearing twice leaves the stores as clearing once does |
| AnalyticsService.GetAnalytics | services/analyticsService.ts:30-52 | reads the stored record; with nothing stored, the seed: 1450, 12, 342, 890, 4520, 1.2 and seven days 2023-10-01..07 with counts 400, 300, 500, 800, 600, 900, 1100; writes nothing |
| AnalyticsService.SaveAnalytics | services/analyticsService.ts:54-56 | the record is stored under the analytics key; reading back yields it |
| AnalyticsService.LiveUsersDraw | services/analyticsService.ts:18 | the drawn live-user figure lies in [5, 24] for any random number in [0, 1) |
| AnalyticsService.AfterVisit | services/analyticsService.ts:8-12 | a visit adds exactly one to totalVisits and changes no other field |
| AnalyticsService.AfterSession | services/analyticsService.ts:14-20 | a session adds one to totalSessions, raises uniqueUsers to at least 124 (keeping a larger value), sets liveUsers within [5, 24], and changes nothing else |
| AnalyticsService.AfterMessage | services/analyticsService.ts:22-28 | a message adds one to totalMessages and changes no field except the count and the average |
| AnalyticsService.AfterMessageTotal | services/analyticsService.ts:24-26 | with the count raised first, the new average times the new count equals the old average times the old count plus the sample |
| AnalyticsService.TrackVisit | services/analyticsService.ts:8-12 | the stored record becomes AfterVisit of the record read (the seed if none) |
| AnalyticsService.TrackSession | services/analyticsService.ts:14-20 | the stored record becomes AfterSession of the record read; the user id plays no part |
| AnalyticsService.TrackMessage | services/analyticsService.ts:22-28 | the stored record becomes AfterMessage of the record read |
| AnalyticsService.RunningTotal | services/analyticsService.ts:22-28 | after k messages the count has grown by k, average times count has grown by the sum of the samples, and nothing else changed |
| AnalyticsService.RunningMean | services/analyticsService.ts:22-28 | after k messages the average is (a0·n0 + Σt)/(n0 + k) |
| AnalyticsService.PlainMean | services/analyticsService.ts:22-28 | from a count of zero the average is the plain mean of the samples |
| GeminiService.RolesRoundTrip | services/geminiService.ts:19 | user maps to "user", assistant to "model", and the role can be read back |
| GeminiService.HistoryContents | services/geminiService.ts:18-21 | one turn per history message, in order, each with the mapped role and a single part holding the message text |
| GeminiService.RequestContentsFaithful | services/geminiService.ts:18-27 | the request has one turn more than the history; each history role and text can be read back from its turn; the last turn is the prompt with role "user" |
| GeminiService.ResponseRequest | services/geminiService.ts:18-38 | the single-shot request carries the history turns plus the prompt, the model name, the system instruction, temperature 0.7, top-k 40 and top-p 0.95 |
| GeminiService.StreamRequest | services/geminiService.ts:49-66 | the streaming request carries the same turns as the single-shot one, with temperature 0.7 and no top-k or top-p |
| Text.TrimStart | pages/ChatPage.tsx:43 | drops only leading white space, and what is left does not start with any |
| Text.TrimEnd | pages/ChatPage.tsx:43 | drops only trailing white space, and what is left does not end with any |
| Text.TrimIsSlice | pages/ChatPage.tsx:43 | the trimmed text is a slice of the input with only white space cut away on either side |
| Text.TrimEmptyIffBlank | pages/ChatPage.tsx:43 | the trimmed input is empty exactly when the input is all white space |
| Text.DecimalString | pages/ChatPage.tsx:46 | a message id is a non-empty string of decimal digits without a leading zero |
| Text.DecimalRoundTrip | pages/ChatPage.tsx:46-62 | the decimal text of a clock reading parses back to the reading |
| Text.DecimalInjective | pages/ChatPage.tsx:46-62 | different clock readings give different message ids |
| ChatPage.ConcatGrows | pages/ChatPage.tsx:72-76 | the text accumulated after i fragments is a prefix of the text after j ≥ i fragments |
| ChatPage.WithContent | pages/ChatPage.tsx:75 | rewriting by id keeps the length, gives every message with that id the new content, and leaves messages with other ids unchanged |
| ChatPage.WithContentTwice | pages/ChatPage.tsx:72-76 | rewriting the same id twice equals rewriting it once with the later content |
| ChatPage.StreamStep | pages/ChatPage.tsx:73-75 | each fragment extends the accumulated text by exactly that fragment, and the rewrite with the longer text replaces the previous rewrite |
| ChatPage.AccumulatedGrows | pages/ChatPage.tsx:72-76 | the placeholder contents shown after successive fragments are prefixes of each other, and the last is the whole reply |
| ChatPage.TranscriptWithFreshPlaceholder | pages/ChatPage.tsx:52-88 | with a fresh placeholder id and a non-decreasing clock, a completed send leaves the earlier messages, the user message, then the placeholder holding all the fragments' text; a failing stream adds exactly the error message after that, keeping the partial text |
| ChatPage.TranscriptWhenOpenFails | pages/ChatPage.tsx:81-88 | a request that fails before the stream opens appends the user message and then the fixed error text, and nothing else |
| ChatPage.ChatView.Mount | pages/ChatPage.tsx:18-33 | the view starts with empty input and not typing; the transcript in the tab-lived store is restored if non-empty and stored back |
| ChatPage.ChatView.SetInput | pages/ChatPage.tsx:168 | typing replaces the input text |
| ChatPage.ChatView.Show | pages/ChatPage.tsx:30-33 | every change of the transcript is saved to the tab-lived store, and the long-lived store is untouched |
| ChatPage.ChatView.StreamInto | pages/ChatPage.tsx:72-76 | after the loop the messages equal the messages before it, rewritten by the placeholder id with the concatenation of all fragments; the transcript on screen after fragment k is the messages before the loop with the placeholder holding the concatenation of the first k+1 fragments; only the stored transcript changes, and only when a fragment arrived |
| ChatPage.ChatView.Answer | pages/ChatPage.tsx:58-88 | after the request is handed over: an error message if the stream does not open; otherwise the placeholder and the fragments (with the transcript on screen after each fragment), then either the error message or one latency report of (end − start)/1000 seconds; the tab-lived store changes only at the transcript key |
| ChatPage.ChatView.Submit | pages/ChatPage.tsx:45-59 | the trimmed user message is appended, the input is cleared and typing starts; the request is for the configured model and holds the transcript from before the user message plus the trimmed prompt; only the stored transcript changes |
| ChatPage.ChatView.Send | pages/ChatPage.tsx:45-91 | the transcript becomes Transcript(old messages, trimmed input, reply, clock); while the request is out the input is empty and typing is on; afterwards typing is off; the tab-lived store changes only at the transcript key, and the analytics record only after a completed stream |
| ChatPage.ChatView.HandleSend | pages/ChatPage.tsx:41-92 | with blank input or while typing nothing changes; otherwise the transcript becomes Transcript(old messages, trimmed input, reply, clock), the input is cleared, typing is on while the request is out and ends false on both paths, the tab-lived store changes only at the transcript key, the request is for the configured model and holds the transcript from before the user message plus the trimmed prompt, and the analytics record changes only after a completed stream |
| App.InitialTheme | App.tsx:27-29 | the saved theme when present, otherwise dark exactly when the system prefers dark |
| App.Toggled | App.tsx:41 | toggling always changes the theme |
| App.ToggledTwice | App.tsx:40-45 | toggling twice restores the original theme |
| App.Route | App.tsx:69-81 | the login page renders exactly when the path is /login and there is no user; chat and dashboard render exactly on their paths with a user; every redirect goes to /chat with a user and to /login without |
| App.RedirectSettles | App.tsx:69-81 | following any redirect reaches a rendered page |
| App.Shell.constructor | App.tsx:12-14 | the shell starts with no user, the light theme, and loading |
| App.Shell.Init | App.tsx:17-38 | a stored user becomes current and starts exactly one session; the theme is InitialTheme of the saved value and the system preference; loading ends; exactly one visit is counted in every case |
| App.Shell.ToggleTheme | App.tsx:40-45 | the theme flips and is stored under 'theme'; nothing else in the stores changes |
| App.Shell.HandleLogin | App.tsx:47-51 | the user becomes current, is stored, and one session is tracked |
| App.Shell.HandleLogout | App.tsx:53-56 | the user is forgotten and the user and transcript keys are removed; the analytics and theme entries, and every other key, are untouched |
| LoginPage.LoginForm.constructor | pages/LoginPage.tsx:13-16 | the form starts with empty names, no avatar, and not loading |
| LoginPage.LoginForm.SetFirstName | pages/LoginPage.tsx:99 | typing replaces the first name |
| LoginPage.LoginForm.SetLastName | pages/LoginPage.tsx:110 | typing replaces the last name |
| LoginPage.LoginForm.HandleFileChange | pages/LoginPage.tsx:18-31 | a file of a type other than image/jpeg, image/png or image/webp is rejected and the avatar is unchanged; an allowed file becomes the avatar; no file changes nothing |
| LoginPage.LoginForm.HandleSubmit | pages/LoginPage.tsx:33-37 | submit proceeds exactly when both names are non-empty and an avatar is given, and then loading starts and the field values are captured; otherwise nothing changes |
| LoginPage.LoginForm.CompleteLogin | pages/LoginPage.tsx:39-49 | the new user carries exactly the captured first name, last name and avatar as avatarUrl; loading is still on when it is handed to login and off afterwards; of the shell only the user changes |
| DashboardPage.Tick | pages/DashboardPage.tsx:31-37 | an absent record stays absent; otherwise only liveUsers changes: it stays ≥ 1 and ≤ old + 1, goes up by one on a draw above one half, and on other draws down by one when it was at least 2 and to 1 otherwise |
| DashboardPage.TicksWalk | pages/DashboardPage.tsx:30-38 | over any number of ticks only liveUsers moves, by at most one per tick, and after the first tick it is at least 1 |
| DashboardPage.Stats | pages/DashboardPage.tsx:45-52 | six tiles in the order Total Visits, Live Users, Unique Users, Total Messages, Avg Latency, Growth Rate, each showing its field of the record, with the growth rate fixed at +12.5% |

The send button's disabled test (pages/ChatPage.tsx:174) is
`ChatPage.ChatView.SendDisabled`. `HandleSend` uses the same predicate as its
guard. The login button's test (pages/LoginPage.tsx:119) is
`LoginPage.LoginForm.SubmitDisabled`.

## Left out

- The hosted model client: creating the client, the network calls and
  their responses. A stream is given as a `Reply`. A failure in the middle
  of a stream is modelled as a failure after the fragments that arrived
  before it.
- JSON encoding in the browser stores. Values are stored already typed.
  A malformed stored value, which makes the source's parse throw, is not
  modelled: `Stores.Valid` assumes the application's keys hold what the
  application writes.
- `Math.random`, `Date.now`, `setTimeout` and `setInterval` are inputs.
  Where the source reads the clock twice a few lines apart (a message's id
  and its timestamp), the model takes one reading for both.
- The user id (`Math.random().toString(36)`) and `createdAt` (an ISO
  timestamp) are inputs to `CompleteLogin`.
- Floating point: counters are unbounded naturals and the average is a
  real, so double rounding is not captured. `toFixed` and `toLocaleString`
  on the dashboard are not modelled.
- Interleaving of overlapping asynchronous flows and lost updates between
  them: each handler runs to completion on its own. React may batch several
  state updates into one save of the transcript. The model saves after each
  update, which ends in the same stored transcript.
- Rendering, charts, icons, scrolling, the `dark` class on the document,
  `matchMedia`, `alert`, and the `FileReader` conversion to a data URL (the
  data URL is part of the chosen file). Route matching by react-router
  (case and trailing slashes) is not modelled: paths are compared as given.
- Store writes always succeed. In the browser `localStorage.setItem` can
  throw, for example when the avatar's data URL exceeds the quota
  (services/sessionService.ts:8, reached from App.tsx:49). Such a throw
  inside the login timeout skips tracking the session and ending loading
  (pages/LoginPage.tsx:47-48). A throw in the transcript save effect
  (pages/ChatPage.tsx:32) is an uncaught effect error.
- Every stream chunk carries text. The client library's `chunk.text` may be
  undefined. Appending it then adds the literal text "undefined" to the
  reply (pages/ChatPage.tsx:73-74). A `Reply`'s fragments are strings only.
- The layout component and the unused chat-session record type.
