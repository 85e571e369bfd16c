# CPA Calculator chat — a Dafny model

This project models the core of a small marketing-analytics chat app, the
"CPA (Cost Per Acquisition) Calculator". It has two halves:

- **The server** (`server.js`) keeps one connected Google Spreadsheet per
  session, keyed by the `x-session-id` header (or `"default"`).
  - `POST /api/connect-spreadsheet` checks the link and extracts the
    spreadsheet ID with the pattern `/spreadsheets/d/([a-zA-Z0-9-_]+)`. With
    Sheets credentials it reads the sheet's title. Without them it records a
    demo connection.
  - `POST /api/chat` builds a system prompt. The prompt has one of three
    endings, chosen by whether the sheet's rows could be read, whether a sheet
    is connected at all, or neither. The chat then asks the language model
    for a reply; without an API key it falls back to a keyword responder,
    `generateDemoResponse`.
- **The browser page** (`public/js/app.js`) simulates the assistant without a
  back end.
  - Its connect form accepts any trimmed, non-empty Sheets link.
  - Its send box ignores empty messages.
  - Its own five-group keyword responder, `generateResponse`, answers each
    message after a timer.

Modules:

- `Text`: the JavaScript string operations the code relies on. These are
  `toLowerCase`, `includes` (proved equal to an existential "occurs"
  predicate) and `trim` (proved to be the input with only a white-space
  prefix and suffix removed, trimmed, and empty exactly for all-space input).
- `KeywordTable`: a declarative reading of both keyword responders. It is an
  ordered list of keyword groups, and the first group that fires gives the
  answer, with a fallback otherwise. Both responders are proved to answer as
  their table says.
- `SheetUrl`: the Sheets-link test and the ID-extraction regular expression.
  The regex is a leftmost-match search followed by a greedy run of ID
  characters. `ExtractId` is proved equal to "the capture of the leftmost
  match".
- `Server`: the two handlers as pure functions over the session map.
  - A `Config` holds the server's configuration.
  - An `Upstream` holds what the Google and Anthropic services answer during
    one request.
  - Class `SheetServer` holds the configuration and the mutable
    `connectedSheets` map. Its methods take each request's `Upstream` and
    are tied to those functions.
- `Client`: class `CpaCalculator` with the page's fields. Two timers (the
  one-second connect delay and the random reply delay) become pending
  queues, and a separate method fires each timer.

## Model

| member | source | states |
|---|---|---|
| Text.Lower | server.js:167 | lower-casing keeps the length and lower-cases each character (ASCII) |
| Text.LowerIdempotent | public/js/app.js:112 | lower-casing twice is the same as once |
| Text.Includes | server.js:41 | `includes` is true exactly when the needle occurs at some position |
| Text.Trim | public/js/app.js:46 | the result is the input with a white-space prefix and a white-space suffix removed; it has no white space at either end; it is empty exactly when the input is all white space |
| KeywordTable.AnswersUnique | public/js/app.js:119-131 | a first-match keyword table gives at most one answer per message |
| KeywordTable.FiresOne | public/js/app.js:123 | a one-keyword group fires exactly when `includes` finds its keyword |
| KeywordTable.FiresTwo | public/js/app.js:119 | a two-keyword group fires exactly when `includes` finds either keyword |
| KeywordTable.AnswersFirstFiring | public/js/app.js:119-128 | the first group that fires gives the table's answer |
| SheetUrl.FindMatch | server.js:46 | finds the leftmost position where `/spreadsheets/d/` and an ID character start, or none exists |
| SheetUrl.IdRunEnd | server.js:46 | the greedy `[a-zA-Z0-9-_]+` run ends at the first non-ID character |
| SheetUrl.ExtractId | server.js:46-51 | no ID exactly when the pattern matches nowhere; any ID found is a non-empty run of ID characters |
| SheetUrl.ExtractIdIsCapture | server.js:46-51 | the extracted ID is exactly the capture group of the leftmost match |
| SheetUrl.ExtractedIsCaptured | server.js:46-51 | the extracted ID is captured at the leftmost match position |
| SheetUrl.CapturedIsExtracted | server.js:46-51 | a capture at the leftmost match is what gets extracted |
| SheetUrl.RunUnique | server.js:46 | a maximal run of ID characters from a given start is unique |
| SheetUrl.SegmentIsId | server.js:46-51 | for the first `/spreadsheets/d/` in a link, an ID segment followed by a non-ID character (or the end) is the extracted ID |
| SheetUrl.NoMatchInHost | server.js:46 | the pattern cannot match inside the `https://docs.google.com` prefix |
| SheetUrl.ExampleUrlId | server.js:41-51 | `https://docs.google.com/spreadsheets/d/ABC123/edit` is accepted and yields the ID `ABC123` |
| Server.SessionKey | server.js:52 | the session key is the header when present and non-empty, else `"default"` |
| Server.HandleConnect | server.js:38-90 | rejects a missing or non-Sheets link (400, map unchanged) and a link without an ID (400); with credentials it answers 400 if the title lookup fails; it succeeds exactly when the link is a Sheets link with an ID and either there are no credentials or the title lookup answers; on success it stores id and link, plus the title with credentials and nothing more in demo mode; only the session's own entry changes |
| Server.RejectedUrlIgnoresUpstream | server.js:41-49 | a rejected link gets the same reply whatever the configuration and whatever the Sheets API would answer |
| Server.ConnectKeepsInvariant | server.js:61-77 | every stored sheet keeps a well-formed ID, the link it came from, and a title exactly when credentials are configured |
| Server.DemoConnectExample | server.js:73-82 | without credentials the example link connects the default session in demo mode with ID `ABC123` |
| Server.FirstRows | server.js:121 | `slice(0, 10)`: the first ten rows, or all when fewer |
| Server.SessionSheet | server.js:94-95 | the session's sheet is present exactly when its key is in the map |
| Server.FetchRows | server.js:102-115 | rows exist only when a sheet is connected, credentials exist and the read succeeded; a failed read leaves no rows |
| Server.SystemPrompt | server.js:117-126 | the prompt starts with the role text; it embeds data exactly when rows were read; otherwise it ends with the no-access or the not-connected text |
| Server.ChatPrompt | server.js:94-126 | the prompt embeds data exactly when the session is connected, credentials are set and the values read succeeds, and then holds the first ten rows; a connected session whose rows cannot be read (no credentials, a failed read, no `values`) gets the no-access prompt; an unconnected session gets the not-connected prompt |
| Server.HandleChat | server.js:92-163 | a missing or empty message is a 400; `hasSpreadsheet` reflects the session; demo replies come from `generateDemoResponse` and are flagged demo; model replies carry the completion text; a failed completion is a 500 with its message |
| Server.GenerateDemoResponse | server.js:166-180 | the connect-first text exactly when no sheet is connected; otherwise one of three fixed answers |
| Server.DemoResponseFollowsTable | server.js:173-179 | with a sheet, the demo reply is the answer of the table `[cpa/cost per acquisition, roi]` with the generic fallback |
| Server.DemoResponseIgnoresCase | server.js:167 | the demo reply does not depend on letter case |
| Server.DemoCpaBeforeRoi | server.js:173-176 | a message mentioning both CPA and ROI gets the CPA answer |
| Server.SheetServer.constructor | server.js:35 | the session map starts empty |
| Server.SheetServer.ConnectSpreadsheet | server.js:38-90 | the reply and the new session map are those of `HandleConnect` on the old map, with this request's service answers |
| Server.SheetServer.Chat | server.js:92-163 | the reply is that of `HandleChat` with this request's service answers; the session map is not changed; a reply for a connected session concerns a stored sheet whose id is the one extracted from its stored link, with a title exactly when credentials are configured |
| Client.CpaCalculator.constructor | public/js/app.js:11-12 | the page starts disconnected with no link |
| Client.CpaCalculator.ConnectSpreadsheet | public/js/app.js:45-63 | an empty trimmed link or a non-Sheets link sets the matching error status and schedules nothing; an accepted link schedules the connect step |
| Client.CpaCalculator.CompleteConnect | public/js/app.js:63-72 | the timer connects the page to the link scheduled first, sets the success status and adds the greeting |
| Client.CpaCalculator.SendMessage | public/js/app.js:87-95 | an empty trimmed message changes nothing; otherwise the trimmed text is shown, the input cleared and a reply scheduled |
| Client.CpaCalculator.DeliverReply | public/js/app.js:102-108 | the reply timer appends the text of `generateResponse` for that message, computed at firing time |
| Client.CpaCalculator.GenerateResponse | public/js/app.js:111-116 | the connect-first answer exactly when the page is not connected |
| Client.ResponseFollowsTable | public/js/app.js:119-131 | once connected, the reply is the answer of the five-group keyword table with the menu as fallback |
| Client.ResponseIgnoresCase | public/js/app.js:112 | the page's reply does not depend on letter case |
| Client.ClientAndServerDiffer | public/js/app.js:121 | a message with "return" but no CPA or ROI keyword gets the ROI answer on the page and the menu from the server's demo responder |

## Left out

- Network and SDK calls are not modelled.
  - The Sheets metadata and values reads and the Anthropic completion are
    function-valued fields of `Upstream`, given afresh with every request.
    Within one request each answer is a fixed function of its arguments,
    which is faithful because the handler calls each service at most once.
    Across requests the answers may differ (a renamed sheet, revoked access,
    a sampled completion).
  - `JSON.stringify` of the rows is a fixed function in `Config`.
  - Whether credentials and the API key are configured are booleans in
    `Config`, constant for the server's lifetime. `sheetsConfigured` reflects
    the Sheets client built once at start-up. The chat handler re-reads the
    API key from the process environment on every request. That read always
    gets the same answer, because nothing in the program changes the
    environment after loading it.
- Concurrency is not modelled. Each request runs as one atomic method call.
  This is exact even though the async handlers can interleave at their
  `await`s. The connect handler never reads the session map, and it writes
  the map at most once, with no `await` after the write. The chat handler reads the map once, before
  its first `await`, and never writes it.
- Express routing, body parsing, static files, the SPA fallback route,
  `listen` and console logging are left out.
- `index.js` and `public/js/app-api.js` are not part of this model.
- Request fields of a non-string type are not modelled. `url` and `message`
  are an optional string, and an absent one behaves like the empty string.
- Text.Lower: lower-cases ASCII letters only, because full Unicode case
  mapping has no counterpart here. Text.Trim likewise strips only ASCII
  white space.
- The remote chat path sends no `isDemo` field. `HandleChat` reports it as
  `false`.
- A thrown exception in the connect handler after the title lookup is
  folded into the lookup's failure. That covers a title lookup that
  succeeds but returns no `properties`.
- The DOM is reduced to the two input fields, the message list and the
  status line. Left out are the button text and colour, the typing
  indicator, textarea resizing, scrolling, and the five-second clearing of
  an error status.
- Client.CpaCalculator.GenerateResponse: it returns which of the seven
  fixed answers is chosen, and `Answer.Text` gives the exact text that is
  displayed.
- Timers are not modelled as time. The connect timers fire in scheduling
  order, and the reply timers fire in any order. Each firing is a separate
  method call.
- The ID is not modelled as "the path segment after `/spreadsheets/d/`".
  The code takes the longest run of `[a-zA-Z0-9-_]` characters there, and
  the model follows the code. `SegmentIsId` states when the two readings
  agree.
