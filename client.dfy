/**
 * The browser-side chat page that simulates the assistant without a back end:
 * the connect form, the send box, and the canned keyword responder. The DOM is
 * reduced to the two input fields, the list of chat messages and the status
 * line; timers become pending callbacks that fire as separate steps.
 */
module Client {
  import opened Wrappers
  import opened Text
  import opened KeywordTable
  import SheetUrl
  import Server

  datatype Role = User | Assistant

  datatype Message = Message(role: Role, text: string)

  datatype StatusKind = Error | Success

  /** The connection status line: its text and its style. */
  datatype Status = Status(text: string, kind: StatusKind)

  const EmptyUrlError := "Please enter a Google Spreadsheet URL"
  const InvalidUrlError := "Please enter a valid Google Spreadsheet URL"
  const ConnectedStatus := "\U{2713} Successfully connected to spreadsheet"
  const ConnectedGreeting :=
      "Great! I've connected to your Google Spreadsheet. "
    + "You can now ask me questions about your "
    + "CPA data, and I'll analyze it for you."

  const ConnectFirst :=
      "Please connect your Google Spreadsheet first "
    + "by entering the URL above and clicking \"Connect\"."
  const CpaReply :=
      "Based on your spreadsheet data, I can see "
    + "your average CPA across all campaigns is "
    + "$45.32. Your most efficient campaign is "
    + "\"Summer Sale 2024\" with a CPA of $28.50, "
    + "while \"Brand Awareness Q4\" has the highest "
    + "CPA at $67.89. Would you like me to break "
    + "down the factors contributing to these numbers?"
  const RoiReply :=
      "Looking at your ROI data: Your overall ROI "
    + "is 312%, which is excellent. The \"Email "
    + "Retargeting\" campaign shows the highest "
    + "ROI at 485%, while \"Social Media Broad\" "
    + "is underperforming at 145%. I recommend "
    + "reallocating budget from the latter to your "
    + "high-performing campaigns."
  const BudgetReply :=
      "Your current monthly marketing budget is "
    + "$50,000. Based on performance data, I suggest: "
    + "40% ($20,000) for Search Ads, 30% ($15,000) "
    + "for Email Marketing, 20% ($10,000) for Social "
    + "Media, and 10% ($5,000) for testing new "
    + "channels. This allocation would optimize "
    + "for your lowest CPA channels."
  const ImproveReply :=
      "To improve your CPA, I recommend:\n\n"
    + "1. Increase budget for \"Email Retargeting\" "
    + "by 25% (projected CPA decrease of $8)\n"
    + "2. Pause \"Display Network - Broad\" campaign "
    + "(current CPA is 3x your target)\n"
    + "3. A/B test new ad creatives in your \"Search "
    + "- Brand\" campaign\n"
    + "4. Implement dayparting for social media "
    + "ads (your data shows 60% better CPA during "
    + "2-5 PM)\n\n"
    + "These changes could reduce your overall "
    + "CPA by approximately 18%."
  const CampaignReply :=
      "Here's your campaign performance summary:\n\n"
    + "\U{1F4CA} Top Performers:\n"
    + "\U{2022} Email Retargeting: CPA $22, ROI 485%\n"
    + "\U{2022} Search - Brand: CPA $31, ROI 390%\n"
    + "\U{2022} Shopping Ads: CPA $35, ROI 340%\n\n"
    + "\U{1F4C9} Needs Improvement:\n"
    + "\U{2022} Display Network: CPA $89, ROI 145%\n"
    + "\U{2022} Social - Broad: CPA $76, ROI 165%\n\n"
    + "Would you like detailed metrics for any "
    + "specific campaign?"
  const MenuReply :=
      "I can help you analyze your CPA data from "
    + "the connected spreadsheet. Try asking me "
    + "about:\n\n"
    + "\U{2022} Your current CPA by campaign\n"
    + "\U{2022} ROI analysis\n"
    + "\U{2022} Budget optimization recommendations\n"
    + "\U{2022} Campaign performance comparisons\n"
    + "\U{2022} Improvement strategies\n\n"
    + "What would you like to know?"

  /** The seven fixed texts the simulated responder chooses from. */
  datatype Answer = AskToConnect | CpaAnswer | RoiAnswer | BudgetAnswer | ImproveAnswer | CampaignAnswer | MenuAnswer
  {
    /** The text shown in the chat for this answer. */
    function Text(): string {
      match this
      case AskToConnect => ConnectFirst
      case CpaAnswer => CpaReply
      case RoiAnswer => RoiReply
      case BudgetAnswer => BudgetReply
      case ImproveAnswer => ImproveReply
      case CampaignAnswer => CampaignReply
      case MenuAnswer => MenuReply
    }
  }

  /** The five keyword groups of the simulated responder, in the order they are tried. */
  const Rules := [
    Rule(["cpa", "cost per acquisition"], CpaAnswer),
    Rule(["roi", "return"], RoiAnswer),
    Rule(["budget"], BudgetAnswer),
    Rule(["improve", "optimize"], ImproveAnswer),
    Rule(["campaign", "performance"], CampaignAnswer)
  ]

  /** A link the connect form accepts: trimmed, non-empty, naming Google Sheets. */
  predicate IsAcceptedLink(url: string) {
    url != "" && IsTrimmed(url) && Includes(url, SheetUrl.SheetsHost)
  }

  /** A message the send box accepts: trimmed and non-empty. */
  predicate IsSendable(text: string) {
    text != "" && IsTrimmed(text)
  }

  class CpaCalculator {
    var isConnected: bool
    var spreadsheetLink: string
    /** The value of the spreadsheet URL field. */
    var urlInput: string
    /** The value of the message text area. */
    var messageInput: string
    /** The chat log, in display order. */
    var messages: seq<Message>
    var status: Option<Status>
    /** Links whose connect timer has not fired yet; equal delays make them fire in this order. */
    var pendingConnects: seq<string>
    /** Messages whose reply timer has not fired yet; random delays let them fire in any order. */
    var pendingReplies: seq<string>

    ghost predicate Valid()
      reads this
    {
      && (isConnected <==> spreadsheetLink != "")
      && (spreadsheetLink != "" ==> IsAcceptedLink(spreadsheetLink))
      && (forall i :: 0 <= i < |pendingConnects| ==> IsAcceptedLink(pendingConnects[i]))
      && (forall i :: 0 <= i < |pendingReplies| ==> IsSendable(pendingReplies[i]))
      && (forall i :: 0 <= i < |messages| && messages[i].role == User ==> IsSendable(messages[i].text))
    }

    constructor ()
      ensures Valid()
      ensures !isConnected && spreadsheetLink == ""
      ensures urlInput == "" && messageInput == "" && messages == [] && status == None
      ensures pendingConnects == [] && pendingReplies == []
    {
      isConnected := false;
      spreadsheetLink := "";
      urlInput := "";
      messageInput := "";
      messages := [];
      status := None;
      pendingConnects := [];
      pendingReplies := [];
    }

    /** The user edits the spreadsheet URL field. */
    method EditUrl(text: string)
      requires Valid()
      modifies this`urlInput
      ensures Valid() && urlInput == text
    {
      urlInput := text;
    }

    /** The user edits the message text area. */
    method EditMessage(text: string)
      requires Valid()
      modifies this`messageInput
      ensures Valid() && messageInput == text
    {
      messageInput := text;
    }

    /**
     * `connectSpreadsheet`: an empty or non-Sheets link only sets an error
     * status; an accepted one schedules the connect step. The connection flag
     * and the stored link do not change here.
     */
    method ConnectSpreadsheet()
      requires Valid()
      modifies this`status, this`pendingConnects
      ensures Valid()
      ensures var url := Trim(urlInput);
        if url == "" then
          status == Some(Status(EmptyUrlError, Error)) && pendingConnects == old(pendingConnects)
        else if !Includes(url, SheetUrl.SheetsHost) then
          status == Some(Status(InvalidUrlError, Error)) && pendingConnects == old(pendingConnects)
        else
          status == old(status) && pendingConnects == old(pendingConnects) + [url]
    {
      var url := Trim(urlInput);
      if url == "" {
        status := Some(Status(EmptyUrlError, Error));
        return;
      }
      if !Includes(url, SheetUrl.SheetsHost) {
        status := Some(Status(InvalidUrlError, Error));
        return;
      }
      pendingConnects := pendingConnects + [url];
    }

    /** The connect timer fires: the page is connected to the link that was scheduled first. */
    method CompleteConnect()
      requires Valid() && pendingConnects != []
      modifies this`isConnected, this`spreadsheetLink, this`status, this`messages, this`pendingConnects
      ensures Valid()
      ensures isConnected && spreadsheetLink == old(pendingConnects[0])
      ensures pendingConnects == old(pendingConnects[1..])
      ensures status == Some(Status(ConnectedStatus, Success))
      ensures messages == old(messages) + [Message(Assistant, ConnectedGreeting)]
    {
      isConnected := true;
      spreadsheetLink := pendingConnects[0];
      pendingConnects := pendingConnects[1..];
      status := Some(Status(ConnectedStatus, Success));
      messages := messages + [Message(Assistant, ConnectedGreeting)];
    }

    /**
     * `sendMessage`: a message that is empty after trimming changes nothing;
     * otherwise the trimmed text is shown, the text area is cleared and a reply
     * is scheduled.
     */
    method SendMessage()
      requires Valid()
      modifies this`messages, this`messageInput, this`pendingReplies
      ensures Valid()
      ensures var text := Trim(old(messageInput));
        if text == "" then
          messages == old(messages) && messageInput == old(messageInput) && pendingReplies == old(pendingReplies)
        else
          && messages == old(messages) + [Message(User, text)]
          && messageInput == ""
          && pendingReplies == old(pendingReplies) + [text]
    {
      var text := Trim(messageInput);
      if text == "" {
        return;
      }
      messages := messages + [Message(User, text)];
      messageInput := "";
      pendingReplies := pendingReplies + [text];
    }

    /**
     * The reply timer of pending message `k` fires: the answer is computed now,
     * from the connection state at this moment, and appended to the chat.
     */
    method DeliverReply(k: nat)
      requires Valid() && k < |pendingReplies|
      modifies this`messages, this`pendingReplies
      ensures Valid()
      ensures messages == old(messages) + [Message(Assistant, GenerateResponse(old(pendingReplies[k])).Text())]
      ensures pendingReplies == old(pendingReplies[..k] + pendingReplies[k + 1..])
    {
      var response := GenerateResponse(pendingReplies[k]).Text();
      messages := messages + [Message(Assistant, response)];
      pendingReplies := pendingReplies[..k] + pendingReplies[k + 1..];
    }

    /**
     * `generateResponse`: the connect-first text while not connected, else the
     * reply of the first keyword group found in the lower-cased message, else
     * the menu. The result names which of the fixed texts is chosen.
     */
    function GenerateResponse(message: string): (r: Answer)
      reads this
      ensures r == AskToConnect <==> !isConnected
    {
      var lower := Lower(message);
      if !isConnected then
        AskToConnect
      else if Includes(lower, "cpa") || Includes(lower, "cost per acquisition") then
        CpaAnswer
      else if Includes(lower, "roi") || Includes(lower, "return") then
        RoiAnswer
      else if Includes(lower, "budget") then
        BudgetAnswer
      else if Includes(lower, "improve") || Includes(lower, "optimize") then
        ImproveAnswer
      else if Includes(lower, "campaign") || Includes(lower, "performance") then
        CampaignAnswer
      else
        MenuAnswer
    }
  }

  /** Once connected, the simulated responder answers as its keyword table does. */
  lemma ResponseFollowsTable(page: CpaCalculator, message: string)
    requires page.isConnected
    ensures Answers(Rules, Lower(message), MenuAnswer, page.GenerateResponse(message))
  {
    var lower := Lower(message);
    var r := page.GenerateResponse(message);
    FiresTwo("cpa", "cost per acquisition", CpaAnswer, lower);
    FiresTwo("roi", "return", RoiAnswer, lower);
    FiresOne("budget", BudgetAnswer, lower);
    FiresTwo("improve", "optimize", ImproveAnswer, lower);
    FiresTwo("campaign", "performance", CampaignAnswer, lower);
    var i := if Fires(Rules[0], lower) then 0
      else if Fires(Rules[1], lower) then 1
      else if Fires(Rules[2], lower) then 2
      else if Fires(Rules[3], lower) then 3
      else if Fires(Rules[4], lower) then 4
      else 5;
    if i < 5 {
      assert r == Rules[i].reply;
      assert FirstFiring(Rules, lower, i);
      AnswersFirstFiring(Rules, lower, MenuAnswer, i);
    } else {
      assert r == MenuAnswer;
    }
  }

  /** Matching ignores ASCII case. */
  lemma ResponseIgnoresCase(page: CpaCalculator, message: string)
    ensures page.GenerateResponse(message) == page.GenerateResponse(Lower(message))
  {
    LowerIdempotent(message);
  }

  /**
   * The page and the server's demo responder are different tables: a message
   * that mentions "return" but none of the CPA or ROI keywords gets the ROI
   * answer on the page and the generic menu from the server.
   */
  lemma ClientAndServerDiffer(page: CpaCalculator, message: string)
    requires page.isConnected
    requires Occurs(Lower(message), "return")
    requires !Occurs(Lower(message), "cpa") && !Occurs(Lower(message), "cost per acquisition")
    requires !Occurs(Lower(message), "roi")
    ensures page.GenerateResponse(message) == RoiAnswer
    ensures Server.GenerateDemoResponse(message, true) == Server.DemoMenu
  {
  }
}
