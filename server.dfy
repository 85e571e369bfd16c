/**
 * The Express back end: the per-session store of connected spreadsheets, the
 * `/api/connect-spreadsheet` and `/api/chat` handlers, and the canned demo
 * responder used when no language-model key is configured.
 */
module Server {
  import opened Wrappers
  import opened Text
  import opened KeywordTable
  import SheetUrl

  /** Cell values of a sheet range, row by row. */
  type Rows = seq<seq<string>>

  /** A connected spreadsheet as the session map holds it: `{id, url}` or `{id, title, url}`. */
  datatype Sheet = Sheet(id: string, url: string, title: Option<string>)

  /**
   * The `values` field of a `spreadsheets.values.get` answer: some rows, no
   * `values` field at all (an empty range), or a thrown error.
   */
  datatype Values = Values(rows: Rows) | NoValues | ValuesFailed

  /** The text of the first content block of `messages.create`, or the error it threw. */
  datatype Completion = Completed(text: string) | CompletionFailed(message: string)

  /**
   * The server's configuration, constant for its lifetime:
   * - `sheetsConfigured`: service-account credentials are set (`sheets != null`),
   *   the Sheets client being built once at start-up;
   * - `apiKeyConfigured`: a language-model API key is set; the chat handler
   *   re-reads the process environment on every request, but nothing in the
   *   program changes it after it is loaded, so the answer never changes;
   * - `stringify`: `JSON.stringify` of the rows put in the prompt.
   */
  datatype Config = Config(
    sheetsConfigured: bool,
    apiKeyConfigured: bool,
    stringify: Rows -> string)

  /**
   * What the remote services answer during one request. A request calls each
   * service at most once, so these are that request's answers; another request
   * may get different ones.
   * - `getTitle(id)`: the title from `spreadsheets.get`, `None` when it throws;
   * - `getValues(id)`: `spreadsheets.values.get` over `A1:Z1000`;
   * - `complete(system, user)`: `messages.create` with that system prompt and one user turn.
   */
  datatype Upstream = Upstream(
    getTitle: string -> Option<string>,
    getValues: string -> Values,
    complete: (string, string) -> Completion)

  /** `200 {success, message, spreadsheetId}` or `status {error}`. */
  datatype ConnectReply =
    | ConnectOk(message: string, spreadsheetId: string)
    | ConnectError(status: int, error: string)

  /**
   * `200 {response, hasSpreadsheet, isDemo}` or `status {error, details}`. The
   * remote path sends no `isDemo` field; it is `false` here.
   */
  datatype ChatReply =
    | ChatOk(response: string, hasSpreadsheet: bool, isDemo: bool)
    | ChatError(status: int, error: string, details: Option<string>)

  const DefaultSession := "default"
  const InvalidUrlError := "Invalid Google Sheets URL"
  const NoIdError := "Could not extract spreadsheet ID"
  const PermissionError := "Could not connect to spreadsheet. Please check permissions."
  const DemoConnected := "Connected to spreadsheet (demo mode)"
  const MessageRequired := "Message is required"
  const ChatFailed := "An error occurred processing your request"

  function ConnectedTo(title: string): string {
    "Connected to \"" + title + "\""
  }

  // ---------------------------------------------------------------- sessions

  /** `req.headers['x-session-id'] || 'default'`: an absent or empty header means the default session. */
  function SessionKey(header: Option<string>): (key: string)
    ensures key != ""
    ensures header.Some? && header.value != "" ==> key == header.value
    ensures key != DefaultSession ==> header == Some(key)
  {
    if header.Some? && header.value != "" then header.value else DefaultSession
  }

  /** What a stored entry always satisfies: it was produced by a successful connect. */
  ghost predicate WellFormed(sheet: Sheet, config: Config) {
    && SheetUrl.IsSheetsUrl(Some(sheet.url))
    && SheetUrl.ExtractId(sheet.url) == Some(sheet.id)
    && (sheet.title.Some? <==> config.sheetsConfigured)
  }

  ghost predicate StoreInvariant(store: map<string, Sheet>, config: Config) {
    forall key :: key in store ==> WellFormed(store[key], config)
  }

  // ---------------------------------------------------------------- connect

  /**
   * The connect handler on a given store: the reply and the store afterwards.
   * Checks run in the source's order: the URL test, the ID pattern, then (with
   * credentials) the metadata call. Only a success writes, and it writes only
   * the entry of the request's session, replacing it wholesale.
   */
  function HandleConnect(store: map<string, Sheet>, url: Option<string>, header: Option<string>,
                         config: Config, up: Upstream)
    : (out: (ConnectReply, map<string, Sheet>))
    ensures !SheetUrl.IsSheetsUrl(url) ==> out == (ConnectError(400, InvalidUrlError), store)
    ensures SheetUrl.IsSheetsUrl(url) && SheetUrl.ExtractId(url.value).None? ==>
              out == (ConnectError(400, NoIdError), store)
    ensures SheetUrl.IsSheetsUrl(url) && SheetUrl.ExtractId(url.value).Some? && config.sheetsConfigured
              && up.getTitle(SheetUrl.ExtractId(url.value).value).None? ==>
              out == (ConnectError(400, PermissionError), store)
    ensures out.0.ConnectOk? <==>
              && SheetUrl.IsSheetsUrl(url) && SheetUrl.ExtractId(url.value).Some?
              && (!config.sheetsConfigured || up.getTitle(SheetUrl.ExtractId(url.value).value).Some?)
    ensures out.0.ConnectError? ==> out.0.status == 400 && out.1 == store
    ensures out.0.ConnectOk? ==>
      var key := SessionKey(header);
      var id := out.0.spreadsheetId;
      && SheetUrl.IsSheetsUrl(url)
      && SheetUrl.ExtractId(url.value) == Some(id)
      && out.1.Keys == store.Keys + {key}
      && (forall k :: k in store && k != key ==> out.1[k] == store[k])
      && out.1[key].id == id && out.1[key].url == url.value
      && (if config.sheetsConfigured
          then out.1[key].title == up.getTitle(id) && out.0.message == ConnectedTo(up.getTitle(id).value)
          else out.1[key].title == None && out.0.message == DemoConnected)
  {
    if !SheetUrl.IsSheetsUrl(url) then
      (ConnectError(400, InvalidUrlError), store)
    else
      match SheetUrl.ExtractId(url.value)
      case None => (ConnectError(400, NoIdError), store)
      case Some(id) =>
        var key := SessionKey(header);
        if !config.sheetsConfigured then
          (ConnectOk(DemoConnected, id), store[key := Sheet(id, url.value, None)])
        else
          match up.getTitle(id)
          case None => (ConnectError(400, PermissionError), store)
          case Some(title) => (ConnectOk(ConnectedTo(title), id), store[key := Sheet(id, url.value, Some(title))])
  }

  /**
   * A rejected URL never reaches the spreadsheet service: the reply is the same
   * whatever the configuration and whatever the services would answer.
   */
  lemma RejectedUrlIgnoresUpstream(store: map<string, Sheet>, url: Option<string>, header: Option<string>,
                                   c1: Config, u1: Upstream, c2: Config, u2: Upstream)
    requires !SheetUrl.IsSheetsUrl(url) || SheetUrl.ExtractId(url.value).None?
    ensures HandleConnect(store, url, header, c1, u1) == HandleConnect(store, url, header, c2, u2)
  {
  }

  /** Every entry of the store was written by a successful connect. */
  lemma ConnectKeepsInvariant(store: map<string, Sheet>, url: Option<string>, header: Option<string>,
                              config: Config, up: Upstream)
    requires StoreInvariant(store, config)
    ensures StoreInvariant(HandleConnect(store, url, header, config, up).1, config)
  {
    var out := HandleConnect(store, url, header, config, up);
    if out.0.ConnectOk? {
      var key := SessionKey(header);
      assert WellFormed(out.1[key], config);
    }
  }

  /** Connecting the example link without credentials stores `ABC123` under the default session. */
  lemma DemoConnectExample(store: map<string, Sheet>, config: Config, up: Upstream)
    requires !config.sheetsConfigured
    ensures HandleConnect(store, Some(SheetUrl.ExampleUrl), None, config, up) ==
            (ConnectOk(DemoConnected, "ABC123"),
             store[DefaultSession := Sheet("ABC123", SheetUrl.ExampleUrl, None)])
  {
    SheetUrl.ExampleUrlId();
  }

  // ---------------------------------------------------------------- chat

  const RolePrompt :=
      "You are a CPA (Cost Per Acquisition) Calculator "
    + "assistant. You help users analyze marketing "
    + "data, calculate CPA metrics, ROI, and provide "
    + "optimization recommendations."
  const ConnectedLead := "\n\nThe user has connected a "
  const DataIntro := ConnectedLead + "Google Spreadsheet" + " with the following data:\n"
  const DataOutro :=
      "...\n\n"
    + "Use this data to provide specific, accurate "
    + "calculations and insights."
  const NoAccessSuffix := ConnectedLead + "spreadsheet but I cannot access the data."
    + " Provide helpful guidance about CPA calculations and ask for specific data points if needed."
  const NotConnectedSuffix := "\n\nNo spreadsheet is connected."
    + " Encourage the user to connect their Google Spreadsheet for personalized analysis."

  /** `rows.slice(0, 10)`. */
  function FirstRows(rows: Rows): (r: Rows)
    ensures |r| == if |rows| < 10 then |rows| else 10
    ensures r == rows[..|r|]
  {
    if |rows| < 10 then rows else rows[..10]
  }

  /** The sheet of the request's session, if it has connected one. */
  function SessionSheet(store: map<string, Sheet>, header: Option<string>): (s: Option<Sheet>)
    ensures s.Some? <==> SessionKey(header) in store
    ensures s.Some? ==> s.value == store[SessionKey(header)]
  {
    var key := SessionKey(header);
    if key in store then Some(store[key]) else None
  }

  /**
   * `sheetData` of the chat handler: rows are fetched only for a connected
   * sheet and only with credentials; a failed fetch or a missing `values`
   * field leaves no data.
   */
  function FetchRows(sheet: Option<Sheet>, config: Config, up: Upstream): (data: Option<Rows>)
    ensures data.Some? ==> sheet.Some? && config.sheetsConfigured && up.getValues(sheet.value.id) == Values(data.value)
    ensures sheet.Some? && config.sheetsConfigured && up.getValues(sheet.value.id).Values? ==> data.Some?
  {
    if sheet.Some? && config.sheetsConfigured then
      match up.getValues(sheet.value.id)
      case Values(rows) => Some(rows)
      case _ => None
    else None
  }

  /** The prompt embeds sheet data: it starts with the role text and the data introduction. */
  predicate IsDataPrompt(p: string) {
    |RolePrompt + DataIntro| <= |p| && p[..|RolePrompt + DataIntro|] == RolePrompt + DataIntro
  }

  /**
   * The system prompt: the fixed role text followed by exactly one of three
   * suffixes, the data one (with the first ten rows) exactly when there is data.
   */
  function SystemPrompt(connected: bool, data: Option<Rows>, stringify: Rows -> string): (p: string)
    ensures |RolePrompt| <= |p| && p[..|RolePrompt|] == RolePrompt
    ensures IsDataPrompt(p) <==> data.Some?
    ensures data.Some? ==> p == RolePrompt + DataIntro + stringify(FirstRows(data.value)) + DataOutro
    ensures data.None? ==> p == RolePrompt + (if connected then NoAccessSuffix else NotConnectedSuffix)
  {
    if data.Some? then
      RolePrompt + DataIntro + stringify(FirstRows(data.value)) + DataOutro
    else
      assert DataIntro[|ConnectedLead|] == 'G';
      assert NoAccessSuffix[|ConnectedLead|] == 's';
      assert NotConnectedSuffix[2] != DataIntro[2];
      RolePrompt + (if connected then NoAccessSuffix else NotConnectedSuffix)
  }

  /**
   * The prompt the chat handler sends for this session: the data prompt when
   * the session's sheet could be read, the cannot-access prompt when a sheet is
   * connected but its rows could not be read, and the not-connected prompt
   * otherwise.
   */
  function ChatPrompt(store: map<string, Sheet>, header: Option<string>, config: Config, up: Upstream): (p: string)
    ensures IsDataPrompt(p) <==>
              && SessionKey(header) in store && config.sheetsConfigured
              && up.getValues(store[SessionKey(header)].id).Values?
    ensures SessionKey(header) !in store ==> p == RolePrompt + NotConnectedSuffix
    ensures SessionKey(header) in store && config.sheetsConfigured ==>
              match up.getValues(store[SessionKey(header)].id)
              case Values(rows) => p == RolePrompt + DataIntro + config.stringify(FirstRows(rows)) + DataOutro
              case _ => p == RolePrompt + NoAccessSuffix
    ensures SessionKey(header) in store && !config.sheetsConfigured ==> p == RolePrompt + NoAccessSuffix
  {
    var sheet := SessionSheet(store, header);
    SystemPrompt(sheet.Some?, FetchRows(sheet, config, up), config.stringify)
  }

  /**
   * The chat handler: an absent or empty message is rejected before anything
   * else; otherwise the reply comes from the language model when a key is
   * configured and from the demo responder otherwise. It reads the store and
   * never writes it.
   */
  function HandleChat(store: map<string, Sheet>, message: Option<string>, header: Option<string>,
                      config: Config, up: Upstream)
    : (reply: ChatReply)
    ensures message.None? || message.value == "" ==> reply == ChatError(400, MessageRequired, None)
    ensures reply.ChatOk? ==> reply.hasSpreadsheet == (SessionKey(header) in store)
    ensures reply.ChatOk? ==> reply.isDemo == !config.apiKeyConfigured
    ensures reply.ChatError? && reply.status != 400 ==> reply.status == 500 && config.apiKeyConfigured
    ensures message.Some? && message.value != "" && !config.apiKeyConfigured ==>
              reply == ChatOk(GenerateDemoResponse(message.value, SessionKey(header) in store),
                              SessionKey(header) in store, true)
    ensures message.Some? && message.value != "" && config.apiKeyConfigured ==>
              match up.complete(ChatPrompt(store, header, config, up), message.value)
              case Completed(text) => reply == ChatOk(text, SessionKey(header) in store, false)
              case CompletionFailed(e) => reply == ChatError(500, ChatFailed, Some(e))
  {
    var sheet := SessionSheet(store, header);
    if message.None? || message.value == "" then
      ChatError(400, MessageRequired, None)
    else if config.apiKeyConfigured then
      match up.complete(SystemPrompt(sheet.Some?, FetchRows(sheet, config, up), config.stringify), message.value)
      case Completed(text) => ChatOk(text, sheet.Some?, false)
      case CompletionFailed(e) => ChatError(500, ChatFailed, Some(e))
    else
      ChatOk(GenerateDemoResponse(message.value, sheet.Some?), sheet.Some?, true)
  }

  // ---------------------------------------------------------------- demo responder

  const DemoConnectFirst :=
      "Please connect your Google Spreadsheet first "
    + "to get personalized CPA analysis. Click "
    + "the \"Connect\" button above and enter your "
    + "spreadsheet URL."
  const DemoCpa :=
      "Based on your spreadsheet data, I can analyze "
    + "your CPA metrics. Your average CPA appears "
    + "to be in a healthy range. Would you like "
    + "me to break down the CPA by campaign or "
    + "time period?"
  const DemoRoi :=
      "I can help you calculate ROI from your spreadsheet "
    + "data. To provide accurate ROI calculations, "
    + "I need to know which campaigns and time "
    + "periods you want to analyze."
  const DemoMenu :=
      "I can help you with CPA calculations, ROI "
    + "analysis, budget optimization, and campaign "
    + "performance metrics using your spreadsheet "
    + "data. What would you like to analyze?"
  /** The demo responder's keyword groups, in the order they are tried. */
  const DemoRules := [Rule(["cpa", "cost per acquisition"], DemoCpa), Rule(["roi"], DemoRoi)]

  /**
   * `generateDemoResponse`: the connect-first text for a session without a
   * sheet, else the first keyword group found in the lower-cased message.
   */
  function GenerateDemoResponse(message: string, hasSpreadsheet: bool): (r: string)
    ensures !hasSpreadsheet ==> r == DemoConnectFirst
    ensures r in {DemoConnectFirst, DemoCpa, DemoRoi, DemoMenu}
    ensures hasSpreadsheet ==> r != DemoConnectFirst
  {
    var lower := Lower(message);
    if !hasSpreadsheet then
      DemoConnectFirst
    else if Includes(lower, "cpa") || Includes(lower, "cost per acquisition") then
      DemoCpa
    else if Includes(lower, "roi") then
      DemoRoi
    else
      DemoMenu
  }

  /** With a sheet connected, the demo responder answers as its keyword table does. */
  lemma DemoResponseFollowsTable(message: string)
    ensures Answers(DemoRules, Lower(message), DemoMenu, GenerateDemoResponse(message, true))
  {
    var lower := Lower(message);
    FiresTwo("cpa", "cost per acquisition", DemoCpa, lower);
    FiresOne("roi", DemoRoi, lower);
    if Fires(DemoRules[0], lower) {
      assert FirstFiring(DemoRules, lower, 0);
    } else if Fires(DemoRules[1], lower) {
      assert FirstFiring(DemoRules, lower, 1);
    }
  }

  /** The demo responder sees the message only through its lower-cased form. */
  lemma DemoResponseIgnoresCase(message: string, hasSpreadsheet: bool)
    ensures GenerateDemoResponse(message, hasSpreadsheet) == GenerateDemoResponse(Lower(message), hasSpreadsheet)
  {
    LowerIdempotent(message);
  }

  /** A message naming both CPA and ROI gets the CPA answer. */
  lemma DemoCpaBeforeRoi(message: string)
    requires Occurs(Lower(message), "cpa") && Occurs(Lower(message), "roi")
    ensures GenerateDemoResponse(message, true) == DemoCpa
  {
  }

  // ---------------------------------------------------------------- the server

  /**
   * The running server: its start-up configuration and the `connectedSheets`
   * map. Each request brings the answers the remote services give it.
   */
  class SheetServer {
    const config: Config
    var connectedSheets: map<string, Sheet>

    ghost predicate Valid()
      reads this
    {
      StoreInvariant(connectedSheets, config)
    }

    constructor (config: Config)
      ensures Valid()
      ensures this.config == config && connectedSheets == map[]
    {
      this.config := config;
      connectedSheets := map[];
    }

    /** `POST /api/connect-spreadsheet`. */
    method ConnectSpreadsheet(url: Option<string>, header: Option<string>, up: Upstream) returns (reply: ConnectReply)
      requires Valid()
      modifies this
      ensures Valid()
      ensures (reply, connectedSheets) == HandleConnect(old(connectedSheets), url, header, config, up)
    {
      ConnectKeepsInvariant(connectedSheets, url, header, config, up);
      if !SheetUrl.IsSheetsUrl(url) {
        return ConnectError(400, InvalidUrlError);
      }
      var found := SheetUrl.ExtractId(url.value);
      if found.None? {
        return ConnectError(400, NoIdError);
      }
      var id := found.value;
      var key := SessionKey(header);
      if config.sheetsConfigured {
        var title := up.getTitle(id);
        if title.None? {
          return ConnectError(400, PermissionError);
        }
        connectedSheets := connectedSheets[key := Sheet(id, url.value, title)];
        reply := ConnectOk(ConnectedTo(title.value), id);
      } else {
        connectedSheets := connectedSheets[key := Sheet(id, url.value, None)];
        reply := ConnectOk(DemoConnected, id);
      }
    }

    /** `POST /api/chat`: reads the store, never writes it. */
    method Chat(message: Option<string>, header: Option<string>, up: Upstream) returns (reply: ChatReply)
      requires Valid()
      ensures reply == HandleChat(connectedSheets, message, header, config, up)
      ensures reply.ChatOk? && reply.hasSpreadsheet ==>
                var sheet := connectedSheets[SessionKey(header)];
                && SheetUrl.ExtractId(sheet.url) == Some(sheet.id)
                && (sheet.title.Some? <==> config.sheetsConfigured)
    {
      var key := SessionKey(header);
      var sheet := if key in connectedSheets then Some(connectedSheets[key]) else None;
      if message.None? || message.value == "" {
        return ChatError(400, MessageRequired, None);
      }
      var data: Option<Rows> := None;
      if sheet.Some? && config.sheetsConfigured {
        var values := up.getValues(sheet.value.id);
        if values.Values? {
          data := Some(values.rows);
        }
      }
      var prompt := RolePrompt;
      if data.Some? {
        prompt := prompt + DataIntro + config.stringify(FirstRows(data.value)) + DataOutro;
      } else if sheet.Some? {
        prompt := prompt + NoAccessSuffix;
      } else {
        prompt := prompt + NotConnectedSuffix;
      }
      assert prompt == SystemPrompt(sheet.Some?, FetchRows(sheet, config, up), config.stringify);
      if config.apiKeyConfigured {
        var completion := up.complete(prompt, message.value);
        match completion {
          case Completed(text) => reply := ChatOk(text, sheet.Some?, false);
          case CompletionFailed(e) => reply := ChatError(500, ChatFailed, Some(e));
        }
      } else {
        reply := ChatOk(GenerateDemoResponse(message.value, sheet.Some?), sheet.Some?, true);
      }
    }
  }
}
