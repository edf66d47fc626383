/**
 * The canned-response assistant console: a first-match keyword table on the lower-cased
 * query picks one of five fixed replies, and sending a message appends the user's message
 * now and the reply after a delay.
 */
module AiConsole {
  import opened Wrappers
  import Text

  datatype MessageType = UserMessage | AiMessage | SystemMessage
  datatype Category = Analysis | Alert | Suggestion | Query

  datatype Message = Message(id: string, messageType: MessageType, content: string, timestamp: int,
    category: Option<Category>)

  /** The five replies the console can give. */
  datatype Reply = SalesAnalysis | StockStatus | ClientIntelligence | SecurityAnalysis | Fallback

  /** A row of the decision table: any of the keywords selects the reply. */
  datatype Rule = Rule(keywords: seq<string>, reply: Reply)

  /** The table, in the order the rules are tried. */
  function Rules(): seq<Rule> {
    [ Rule(["sales", "revenue"], SalesAnalysis),
      Rule(["stock", "inventory"], StockStatus),
      Rule(["client", "customer"], ClientIntelligence),
      Rule(["theft", "missing"], SecurityAnalysis) ]
  }

  predicate MentionsAny(text: string, keywords: seq<string>) {
    exists i :: 0 <= i < |keywords| && Text.Contains(text, keywords[i])
  }

  /** The reply of the first rule one of whose keywords occurs in `text`; the fallback if none does. */
  function FirstMatch(rules: seq<Rule>, text: string): Reply {
    if rules == [] then Fallback
    else if MentionsAny(text, rules[0].keywords) then rules[0].reply
    else FirstMatch(rules[1..], text)
  }

  lemma MentionsPair(text: string, a: string, b: string)
    ensures MentionsAny(text, [a, b]) <==> Text.Contains(text, a) || Text.Contains(text, b)
  {
    if Text.Contains(text, a) {
      assert [a, b][0] == a;
    }
    if Text.Contains(text, b) {
      assert [a, b][1] == b;
    }
  }

  /**
   * The if/else chain of `generateAIResponse` on the lower-cased query. It is the table read
   * top to bottom: the first rule with a keyword in the query wins, and earlier rules win.
   */
  function ChooseReply(query: string): (r: Reply)
    ensures r == FirstMatch(Rules(), Text.Lower(query))
  {
    var q := Text.Lower(query);
    var rs := Rules();
    assert rs[0].keywords == ["sales", "revenue"];
    assert rs[1..][0].keywords == ["stock", "inventory"];
    assert rs[1..][1..][0].keywords == ["client", "customer"];
    assert rs[1..][1..][1..][0].keywords == ["theft", "missing"];
    assert rs[1..][1..][1..][1..] == [];
    MentionsPair(q, "sales", "revenue");
    MentionsPair(q, "stock", "inventory");
    MentionsPair(q, "client", "customer");
    MentionsPair(q, "theft", "missing");
    assert FirstMatch(rs[1..][1..][1..][1..], q) == Fallback;
    assert FirstMatch(rs[1..][1..][1..], q) == if MentionsAny(q, ["theft", "missing"]) then SecurityAnalysis else Fallback;
    assert FirstMatch(rs[1..][1..], q)
      == if MentionsAny(q, ["client", "customer"]) then ClientIntelligence else FirstMatch(rs[1..][1..][1..], q);
    assert FirstMatch(rs[1..], q)
      == if MentionsAny(q, ["stock", "inventory"]) then StockStatus else FirstMatch(rs[1..][1..], q);
    if Text.Contains(q, "sales") || Text.Contains(q, "revenue") then SalesAnalysis
    else if Text.Contains(q, "stock") || Text.Contains(q, "inventory") then StockStatus
    else if Text.Contains(q, "client") || Text.Contains(q, "customer") then ClientIntelligence
    else if Text.Contains(q, "theft") || Text.Contains(q, "missing") then SecurityAnalysis
    else Fallback
  }

  /** Matching ignores case: a query and its lower-cased form get the same reply. */
  lemma ChooseReplyIgnoresCase(query: string)
    ensures ChooseReply(Text.Lower(query)) == ChooseReply(query)
  {
    Text.LowerIdempotent(query);
  }

  function CategoryOf(r: Reply): Category {
    match r
    case SalesAnalysis => Analysis
    case StockStatus => Alert
    case ClientIntelligence => Suggestion
    case SecurityAnalysis => Alert
    case Fallback => Suggestion
  }

  const FallbackIntro: string := "\U{1F916}" + " I understand you're asking about \""
  const FallbackHelp: string :=
    "\". Here's what I can help with:\n"
    + "\n"
    + "\U{2022} **Analytics**: Sales, profit, trends\n"
    + "\U{2022} **Inventory**: Stock levels, alerts, tracking\n"
    + "\U{2022} **Clients**: Reminders, preferences, history\n"
    + "\U{2022} **Security**: Theft detection, anomalies\n"
    + "\U{2022} **Operations**: Orders, deliveries, schedules\n"
    + "\n"
    + "Please specify what you'd like to know more about!"

  const SalesText: string :=
    "\U{1F4CA}" + (" **Sales Analysis**\n"
    + "\n"
    + "\U{2022} Today's Revenue: \U{20B9}2,45,000\n"
    + "\U{2022} Top Selling: Diamond Necklaces (5 units)\n"
    + "\U{2022} Growth: +15% vs last week\n"
    + "\U{2022} Peak Hours: 2-4 PM\n"
    + "\n"
    + "**Recommendations:**\n"
    + "- Promote gold bangles (low sales today)\n"
    + "- Contact premium clients for diamond collection")

  const StockText: string :=
    "\U{1F4E6}" + (" **Stock Status**\n"
    + "\n"
    + "**Low Stock Alerts:**\n"
    + "\U{2022} Diamond Rings: 4 pieces (Reorder needed)\n"
    + "\U{2022} Gold Chains 22K: 7 pieces\n"
    + "\U{2022} Silver Bangles: 12 pieces\n"
    + "\n"
    + "**High Stock:**\n"
    + "\U{2022} Gold Earrings: 45 pieces\n"
    + "\U{2022} Loose Diamonds: 234 pieces\n"
    + "\n"
    + "**Action Required:** Place order for diamond rings from Vendor #3")

  const ClientText: string :=
    "\U{1F465}" + (" **Client Intelligence**\n"
    + "\n"
    + "**Upcoming Events:**\n"
    + "\U{2022} Mrs. Sharma - Anniversary (Tomorrow)\n"
    + "\U{2022} Mr. Patel - Birthday (3 days)\n"
    + "\U{2022} Ms. Gupta - Wedding Anniversary (1 week)\n"
    + "\n"
    + "**Recommendations:**\n"
    + "- Send personalized greetings\n"
    + "- Suggest gift collections\n"
    + "- Schedule follow-up calls")

  const SecurityText: string :=
    "\U{1F6A8}" + (" **Security Analysis**\n"
    + "\n"
    + "**Stock Verification:**\n"
    + "\U{2022} All high-value items accounted for\n"
    + "\U{2022} Last audit: 2 hours ago\n"
    + "\U{2022} Discrepancies: None detected\n"
    + "\n"
    + "**Monitoring:**\n"
    + "- CCTV: Active\n"
    + "- Tag Scanning: 99.8% accuracy\n"
    + "- Access Logs: Normal patterns")

  /** The first character of each reply: its emoji. */
  function Badge(r: Reply): char {
    match r
    case SalesAnalysis => '\U{1F4CA}'
    case StockStatus => '\U{1F4E6}'
    case ClientIntelligence => '\U{1F465}'
    case SecurityAnalysis => '\U{1F6A8}'
    case Fallback => '\U{1F916}'
  }

  /** The reply's text; only the fallback quotes the query, right after its opening words. */
  function ReplyText(r: Reply, query: string): (t: string)
    ensures |t| > 0 && t[0] == Badge(r)
    ensures r == Fallback ==> Text.OccursAt(t, query, |FallbackIntro|)
  {
    match r
    case SalesAnalysis => SalesText
    case StockStatus => StockText
    case ClientIntelligence => ClientText
    case SecurityAnalysis => SecurityText
    case Fallback => FallbackIntro + query + FallbackHelp
  }

  /**
   * Different replies never have the same text, whatever the queries: in particular a stock
   * reply and a security reply, which share the "alert" category, can be told apart.
   */
  lemma ReplyTextsDistinct(r1: Reply, r2: Reply, q1: string, q2: string)
    requires r1 != r2
    ensures ReplyText(r1, q1) != ReplyText(r2, q2)
  {
  }

  /**
   * `generateAIResponse`, with the message id and the clock reading as inputs. The reply is always
   * an assistant message, never of category "query"; its category follows the first matching rule,
   * and a query matching no rule is quoted verbatim in a suggestion.
   */
  function GenerateResponse(query: string, id: string, now: int): (m: Message)
    ensures m.messageType == AiMessage
    ensures m.category.Some? && m.category.value != Query
    ensures m.category == Some(CategoryOf(FirstMatch(Rules(), Text.Lower(query))))
    ensures FirstMatch(Rules(), Text.Lower(query)) == Fallback ==>
      m.category == Some(Suggestion) && m.content == FallbackIntro + query + FallbackHelp
    ensures m.content == ReplyText(FirstMatch(Rules(), Text.Lower(query)), query)
    ensures m.id == id && m.timestamp == now
  {
    var r := ChooseReply(query);
    Message(id, AiMessage, ReplyText(r, query), now, Some(CategoryOf(r)))
  }

  /** The send button: enabled with non-blank input while no reply is being prepared. */
  function SendButtonEnabled(input: string, isProcessing: bool): (enabled: bool)
    ensures enabled <==> !isProcessing && exists i :: 0 <= i < |input| && !Text.IsSpace(input[i])
  {
    Text.TrimEmptyIffBlank(input);
    Text.Trim(input) != "" && !isProcessing
  }

  /**
   * The console's state. `queued` holds the inputs whose delayed replies have not arrived yet,
   * oldest first; the Enter key is not blocked while a reply is being prepared, so there can be
   * more than one.
   */
  class Console {
    var messages: seq<Message>
    var input: string
    var isProcessing: bool
    var queued: seq<string>

    predicate Valid()
      reads this
    {
      isProcessing ==> queued != []
    }

    constructor (initialMessages: seq<Message>)
      ensures Valid() && messages == initialMessages && input == "" && !isProcessing && queued == []
    {
      messages := initialMessages;
      input := "";
      isProcessing := false;
      queued := [];
    }

    /** Typing into the input box. */
    method SetInput(text: string)
      modifies this`input
      ensures input == text
    {
      input := text;
    }

    /**
     * `handleSendMessage` (by button or Enter): blank input changes nothing; otherwise the input
     * is appended as a user query, the box is cleared, and a reply to that input is scheduled.
     */
    method SendMessage(id: string, now: int)
      requires Valid()
      modifies this
      ensures Valid()
      ensures Text.Trim(old(input)) == "" ==>
        messages == old(messages) && input == old(input) && isProcessing == old(isProcessing) && queued == old(queued)
      ensures Text.Trim(old(input)) != "" ==>
        messages == old(messages) + [Message(id, UserMessage, old(input), now, Some(Query))]
        && input == "" && isProcessing && queued == old(queued) + [old(input)]
    {
      if Text.Trim(input) == "" {
        return;
      }
      var userMessage := Message(id, UserMessage, input, now, Some(Query));
      messages := messages + [userMessage];
      queued := queued + [input];
      input := "";
      isProcessing := true;
    }

    /** The delayed step 1.5 s after a send: append the reply to the oldest waiting input. */
    method DeliverReply(id: string, now: int)
      requires Valid() && queued != []
      modifies this
      ensures Valid()
      ensures messages == old(messages) + [GenerateResponse(old(queued)[0], id, now)]
      ensures queued == old(queued)[1..] && !isProcessing && input == old(input)
    {
      var aiResponse := GenerateResponse(queued[0], id, now);
      messages := messages + [aiResponse];
      queued := queued[1..];
      isProcessing := false;
    }
  }
}
