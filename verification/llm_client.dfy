/**
 * The language-model client: the writing-direction test, the stand-in model that routes the
 * last message by keywords to a tool request or a canned greeting, and `SendMessageToLLM`,
 * which turns the model's reply into the assistant messages appended to the conversation.
 * The clock (`Date.now()`) is passed in as the sequence of its successive readings.
 */
module LlmClient {
  import opened Options
  import opened Text
  import opened Json
  import opened ChatTypes
  import opened Tools

  // ----- writing direction -----

  /** Arabic, Arabic Supplement, Arabic Extended-A and the Arabic Presentation Forms A and B. */
  predicate IsRtlChar(c: char) {
    || '\U{0600}' <= c <= '\U{06FF}'
    || '\U{0750}' <= c <= '\U{077F}'
    || '\U{08A0}' <= c <= '\U{08FF}'
    || '\U{FB50}' <= c <= '\U{FDFF}'
    || '\U{FE70}' <= c <= '\U{FEFF}'
  }

  /** The direction test: right-to-left exactly when some character lies in one of the
      right-to-left script ranges, scanning as the regular expression does. */
  function DetectDirection(text: string): (d: Direction)
    ensures d == Rtl <==> exists i :: 0 <= i < |text| && IsRtlChar(text[i])
  {
    if text == [] then Ltr
    else if IsRtlChar(text[0]) then Rtl
    else
      var d := DetectDirection(text[1..]);
      assert forall i :: 1 <= i < |text| ==> text[i] == text[1..][i - 1];
      d
  }

  /** Lower-casing touches only ASCII letters, so it never changes the direction. */
  lemma DirectionIgnoresCase(text: string)
    ensures DetectDirection(Lower(text)) == DetectDirection(text)
  {
    assert forall i :: 0 <= i < |text| ==> (IsRtlChar(Lower(text)[i]) <==> IsRtlChar(text[i]));
  }

  // ----- keyword routing -----

  predicate IsOperator(c: char) {
    c in "+-*/"
  }

  /** `s[lo..hi]` is all white space. */
  predicate SpacesBetween(s: string, lo: nat, hi: nat)
    requires lo <= hi <= |s|
  {
    forall k :: lo <= k < hi ==> IsJsSpace(s[k])
  }

  /** `/(\d+)\s*[+\-*\/]\s*(\d+)/` matches with its operator at `q`, the last digit of the
      first number at `p` and the first digit of the second number at `r`. */
  predicate ArithmeticAt(s: string, p: nat, q: nat, r: nat)
    requires p < q < r < |s|
  {
    IsAsciiDigit(s[p]) && SpacesBetween(s, p + 1, q) && IsOperator(s[q])
    && SpacesBetween(s, q + 1, r) && IsAsciiDigit(s[r])
  }

  /** The arithmetic pattern occurs somewhere in `s`. */
  predicate HasArithmetic(s: string) {
    exists p: nat, q: nat, r: nat :: p < q < r < |s| && ArithmeticAt(s, p, q, r)
  }

  /** `[\d\s+\-*\/]`, the characters of an extracted expression. */
  predicate InRunClass(c: char) {
    IsAsciiDigit(c) || IsJsSpace(c) || IsOperator(c)
  }

  /** Where the leftmost run of expression characters starts (`|s|` when there is none). */
  function RunStart(s: string): (i: nat)
    ensures i <= |s|
    ensures forall k :: 0 <= k < i ==> !InRunClass(s[k])
    ensures i < |s| ==> InRunClass(s[i])
  {
    if s == [] || InRunClass(s[0]) then 0 else 1 + RunStart(s[1..])
  }

  /** The longest prefix of `s` made of expression characters. */
  function LeadingRun(s: string): (r: string)
    ensures r <= s
    ensures forall k :: 0 <= k < |r| ==> InRunClass(r[k])
    ensures |r| < |s| ==> !InRunClass(s[|r|])
  {
    if s == [] || !InRunClass(s[0]) then [] else [s[0]] + LeadingRun(s[1..])
  }

  /** `s.match(/[\d\s+\-*\/]+/)?.[0]`: the leftmost run, extended as far as it goes. */
  function FirstRun(s: string): (r: Option<string>)
    ensures r.None? <==> forall k :: 0 <= k < |s| ==> !InRunClass(s[k])
    ensures r.Some? ==> r.value != [] && r.value <= s[RunStart(s)..]
    ensures r.Some? ==> forall k :: 0 <= k < |r.value| ==> InRunClass(r.value[k])
    ensures r.Some? && RunStart(s) + |r.value| < |s| ==> !InRunClass(s[RunStart(s) + |r.value|])
  {
    var i := RunStart(s);
    if i == |s| then None else Some(LeadingRun(s[i..]))
  }

  /** The expression sent to the calculator; "2+2" when no run is found. */
  function CalculatorExpression(content: string): string {
    match FirstRun(content)
    case Some(run) => run
    case None => "2+2"
  }

  /** Wherever the arithmetic pattern matches, a run exists, so the "2+2" fallback is never
      taken on the arithmetic route. */
  lemma ArithmeticNeverFallsBack(content: string)
    requires HasArithmetic(content)
    ensures FirstRun(content).Some? && CalculatorExpression(content) == FirstRun(content).value
  {
    var p: nat, q: nat, r: nat :| p < q < r < |content| && ArithmeticAt(content, p, q, r);
    assert InRunClass(content[p]);
  }

  const DateKeywords: seq<string> := ["date", "تاریخ", "time", "ساعت"]
  const TranslateKeywords: seq<string> := ["translate", "ترجمه"]
  /** The docs keywords in the order the deleting pattern lists them. */
  const DocsKeywords: seq<string> := ["docs", "search", "جستجو", "سند"]

  /** One of the keywords occurs in `content`. */
  predicate Mentions(content: string, keywords: seq<string>) {
    exists i :: 0 <= i < |keywords| && Contains(content, keywords[i])
  }

  /** Every keyword holds one of `d`, `s`, `t`, `ت` (teh) or `د` (dal), so a message
      without these letters mentions none. */
  lemma KeywordFree(content: string)
    requires 'd' !in content && 's' !in content && 't' !in content
    requires '\U{062A}' !in content && '\U{062F}' !in content
    ensures !Mentions(content, DateKeywords)
    ensures !Mentions(content, TranslateKeywords)
    ensures !Mentions(content, DocsKeywords)
  {
    NotContainsWhenCharAbsent(content, "date", 0);
    NotContainsWhenCharAbsent(content, "تاریخ", 0);
    NotContainsWhenCharAbsent(content, "time", 0);
    NotContainsWhenCharAbsent(content, "ساعت", 3);
    NotContainsWhenCharAbsent(content, "translate", 0);
    NotContainsWhenCharAbsent(content, "ترجمه", 0);
    NotContainsWhenCharAbsent(content, "docs", 0);
    NotContainsWhenCharAbsent(content, "search", 0);
    NotContainsWhenCharAbsent(content, "جستجو", 2);
    NotContainsWhenCharAbsent(content, "سند", 2);
  }

  /** What the stand-in model does with a (lower-cased) message. */
  datatype Intent =
    | Calculate(expression: string)
    | AskDate
    | Translate(text: string)
    | SearchDocs(query: string)
    | Converse(direction: Direction)

  /** The keyword router, in its priority order: arithmetic, date or time, translation,
      document search, and otherwise conversation in the message's own direction. */
  function Route(content: string): (i: Intent)
    ensures i.Calculate? <==> HasArithmetic(content)
    ensures i.AskDate? <==> !HasArithmetic(content) && Mentions(content, DateKeywords)
    ensures i.Translate? <==> !HasArithmetic(content) && !Mentions(content, DateKeywords)
                              && Mentions(content, TranslateKeywords)
    ensures i.SearchDocs? <==> !HasArithmetic(content) && !Mentions(content, DateKeywords)
                               && !Mentions(content, TranslateKeywords) && Mentions(content, DocsKeywords)
    ensures i.Calculate? ==> i.expression == FirstRun(content).value
    ensures i.Calculate? ==> i.expression != [] && forall k :: 0 <= k < |i.expression| ==> InRunClass(i.expression[k])
    ensures i.Translate? ==> i.text == Trim(DeleteAll(content, TranslateKeywords))
    ensures i.SearchDocs? ==> i.query == Trim(DeleteAll(content, DocsKeywords))
    ensures i.Converse? ==> (i.direction == Rtl <==> exists k :: 0 <= k < |content| && IsRtlChar(content[k]))
  {
    if HasArithmetic(content) then
      ArithmeticNeverFallsBack(content);
      Calculate(CalculatorExpression(content))
    else if Mentions(content, DateKeywords) then AskDate
    else if Mentions(content, TranslateKeywords) then Translate(Trim(DeleteAll(content, TranslateKeywords)))
    else if Mentions(content, DocsKeywords) then SearchDocs(Trim(DeleteAll(content, DocsKeywords)))
    else Converse(DetectDirection(content))
  }

  /** The tool each tool intent asks for. */
  function ToolOf(intent: Intent): string
    requires !intent.Converse?
  {
    match intent
    case Calculate(_) => "calculator"
    case AskDate => "persian_date"
    case Translate(_) => "translate"
    case SearchDocs(_) => "docs_qa"
  }

  /** The arguments the stand-in model writes for a tool intent, members in source order. */
  function ArgsOf(intent: Intent): (args: Json)
    requires !intent.Converse?
    ensures args.JObject?
  {
    match intent
    case Calculate(e) => JObject([("expression", JString(e))])
    case AskDate => JObject([])
    case Translate(t) => JObject([("text", JString(t)), ("direction", JString("en-fa"))])
    case SearchDocs(q) => JObject([("query", JString(q))])
  }

  /** The tool request the stand-in model writes for a tool intent. */
  function RequestOf(intent: Intent): Json
    requires !intent.Converse?
  {
    JObject([("tool", JString(ToolOf(intent))), ("args", ArgsOf(intent))])
  }

  /** Each tool accepts the arguments written for it and computes the intended result. */
  lemma ArgsAreAccepted(intent: Intent, host: Host)
    requires !intent.Converse?
    ensures var r := RunTool(ToolOf(intent), ArgsOf(intent), host);
      && r.Some?
      && (intent.Calculate? ==> r.value == JString(CalculatorTool(intent.expression, host.evaluate)))
      && (intent.AskDate? ==> r.value == PersianDateTool(host.now))
      && (intent.Translate? ==> r.value == JString(EnToFaPrefix + intent.text))
      && (intent.SearchDocs? ==> r.value == JString(DocsQaTool(intent.query)))
  {
    if intent.Translate? {
      LastMemberOfPair("text", JString(intent.text), "direction", JString("en-fa"));
    }
  }

  // The canned replies, written in short pieces.
  const FarsiGreeting: string :=
    "من یک دستیار هوشمند هستم که می" + [Zwnj] + "توانم به شما در انجام محاسبات، "
    + "ترجمه متون و جستجو در اسناد " + "کمک کنم. چطور می" + [Zwnj] + "توانم امروز به شما کمک کنم؟"
  const EnglishGreeting: string :=
    "I am a smart assistant capable of " + "helping you with calculations, "
    + "translations, and document search. " + "How can I help you today?"

  /** The stand-in model's reply to a lower-cased message: the serialised tool request, or
      the greeting in the message's direction. */
  function Reply(content: string): string {
    var intent := Route(content);
    if !intent.Converse? then Stringify(RequestOf(intent))
    else if intent.direction == Rtl then FarsiGreeting
    else EnglishGreeting
  }

  /** The stand-in model reads only the last message, lower-cased; with no message at all
      reading it throws (`None`). */
  function MockLlmResponse(messages: seq<ChatMessage>): (r: Option<string>)
    ensures r.None? <==> messages == []
    ensures r.Some? ==> r.value == Reply(Lower(messages[|messages| - 1].content))
  {
    if messages == [] then None else Some(Reply(Lower(messages[|messages| - 1].content)))
  }

  /** The text a tool intent carries, if any. */
  function Carried(intent: Intent): string {
    match intent
    case Calculate(e) => e
    case Translate(t) => t
    case SearchDocs(q) => q
    case _ => ""
  }

  /** Keys and tool names are fixed, so a request holds a backtick only if the text it
      carries does. */
  lemma RequestOfKeepsBacktickOut(intent: Intent)
    requires !intent.Converse? && '`' !in Carried(intent)
    ensures Avoids(RequestOf(intent), '`')
  {
  }

  /** The text a tool intent carries is taken from the message. */
  lemma CarriedTextComesFromMessage(content: string, c: char)
    requires c !in content
    ensures c !in Carried(Route(content))
  {
    var intent := Route(content);
    if intent.Calculate? {
      var i := RunStart(content);
      assert intent.expression <= content[i..];
      assert forall k :: 0 <= k < |intent.expression| ==> intent.expression[k] == content[i + k];
    } else if intent.Translate? {
      DeleteAllKeepsAbsentChar(content, TranslateKeywords, c);
    } else if intent.SearchDocs? {
      DeleteAllKeepsAbsentChar(content, DocsKeywords, c);
    }
  }

  /** What the tool manager makes of each tool request the stand-in model writes: a call of
      the intended tool, with the intended arguments; translation always runs English to
      Farsi. The parser is assumed to read the serialised request back. */
  lemma RequestIsDispatched(intent: Intent, host: Host)
    requires !intent.Converse? && '`' !in Carried(intent)
    requires host.parse(Stringify(RequestOf(intent))) == Some(RequestOf(intent))
    ensures var r := HandleToolCall(Stringify(RequestOf(intent)), host);
      && r.isToolCall && r.toolName == Some(ToolOf(intent))
      && (intent.Calculate? ==> r.toolResult == Some(JString(CalculatorTool(intent.expression, host.evaluate))))
      && (intent.AskDate? ==> r.toolResult == Some(PersianDateTool(host.now)))
      && (intent.Translate? ==> r.toolResult == Some(JString(EnToFaPrefix + intent.text)))
      && (intent.SearchDocs? ==> r.toolResult == Some(JString(DocsQaTool(intent.query))))
  {
    var req := RequestOf(intent);
    var args := ArgsOf(intent);
    assert req == JObject([("tool", JString(ToolOf(intent))), ("args", args)]);
    RequestOfKeepsBacktickOut(intent);
    SerialisedObjectIsParsedAsIs(req);
    ArgsAreAccepted(intent, host);
    ParsedRequestIsDispatched(Stringify(req), ToolOf(intent), args, host);
  }

  /** End to end: a message without backticks that the router sends to a tool makes the
      stand-in model's reply a call of that tool. */
  lemma ToolIntentIsDispatched(content: string, host: Host)
    requires '`' !in content && !Route(content).Converse?
    requires host.parse(Stringify(RequestOf(Route(content)))) == Some(RequestOf(Route(content)))
    ensures HandleToolCall(Reply(content), host).isToolCall
    ensures HandleToolCall(Reply(content), host).toolName == Some(ToolOf(Route(content)))
  {
    CarriedTextComesFromMessage(content, '`');
    RequestIsDispatched(Route(content), host);
  }

  /** A greeting holds no backtick and starts with neither white space nor a brace. */
  predicate Unbraced(greeting: string) {
    '`' !in greeting && greeting != [] && !IsJsSpace(greeting[0]) && greeting[0] != '{'
  }

  lemma FarsiGreetingIsUnbraced()
    ensures Unbraced(FarsiGreeting)
  {
    assert FarsiGreeting[0] == '\U{0645}';
    assert '`' !in FarsiGreeting;
  }

  // The solver does not look inside a long string literal as a whole, so the English
  // greeting's pieces are shown free of backticks two at a time, each by a lemma of its own.

  lemma LeadingPiecesAvoidBacktick(a: string, b: string)
    requires a == "I am a smart assistant capable of " && b == "helping you with calculations, "
    ensures '`' !in a + b
  {
    assert '`' !in a;
    assert '`' !in b;
  }

  lemma TrailingPiecesAvoidBacktick(c: string, d: string)
    requires c == "translations, and document search. " && d == "How can I help you today?"
    ensures '`' !in c + d
  {
    assert '`' !in c;
    assert '`' !in d;
  }

  lemma EnglishGreetingIsUnbraced()
    ensures Unbraced(EnglishGreeting)
  {
    var a, b := "I am a smart assistant capable of ", "helping you with calculations, ";
    var c, d := "translations, and document search. ", "How can I help you today?";
    LeadingPiecesAvoidBacktick(a, b);
    TrailingPiecesAvoidBacktick(c, d);
    assert EnglishGreeting == (a + b) + (c + d);
    assert EnglishGreeting[0] == a[0] == 'I';
  }

  /** End to end: a message the router keeps for conversation gets the greeting as plain
      text. */
  lemma ConversationIsPlainText(content: string, host: Host)
    requires Route(content).Converse?
    ensures HandleToolCall(Reply(content), host) == PlainText(Reply(content))
  {
    FarsiGreetingIsUnbraced();
    EnglishGreetingIsUnbraced();
    UnbracedResponseIsPlainText(Reply(content), host);
  }

  lemma QuestionMatchesArithmetic(question: string)
    requires question == "what is 2+2"
    ensures HasArithmetic(question)
  {
    assert ArithmeticAt(question, 8, 9, 10);
  }

  /** The run starts at the first expression character. */
  lemma {:induction false} RunStartsAtFirstMember(s: string, n: nat)
    requires n < |s| && InRunClass(s[n]) && forall k :: 0 <= k < n ==> !InRunClass(s[k])
    ensures RunStart(s) == n
  {
    if n > 0 {
      RunStartsAtFirstMember(s[1..], n - 1);
    }
  }

  lemma QuestionFirstRunIsSpace(question: string)
    requires question == "what is 2+2"
    ensures FirstRun(question) == Some(" ")
  {
    assert InRunClass(question[4]);
    assert forall k :: 0 <= k < 4 ==> !InRunClass(question[k]);
    RunStartsAtFirstMember(question, 4);
    var rest := question[4..];
    assert rest[0] == ' ' && rest[1] == 'i';
    assert LeadingRun(rest[1..]) == [];
    assert LeadingRun(rest) == [' '] + LeadingRun(rest[1..]) == " ";
    assert |question| == 11;
    assert FirstRun(question) == Some(LeadingRun(rest));
  }

  /** The extracted expression is the leftmost run of expression characters, not the
      arithmetic the pattern found: in "what is 2+2" that run is the single space after
      "what", and that space is what reaches the calculator. */
  lemma QuestionSendsSpaceToCalculator(question: string)
    requires question == "what is 2+2"
    ensures Route(question) == Calculate(" ")
  {
    QuestionMatchesArithmetic(question);
    QuestionFirstRunIsSpace(question);
  }

  /** Persian digits are not `\d`: a message whose digits are all Persian never takes the
      arithmetic route. */
  lemma PersianDigitsAreNotArithmetic(content: string)
    requires forall k :: 0 <= k < |content| ==> !IsAsciiDigit(content[k])
    ensures !HasArithmetic(content)
  {
  }

  /** The stand-in model reads the last message only: earlier messages never change its
      reply. */
  lemma OnlyLastMessageMatters(earlier1: seq<ChatMessage>, earlier2: seq<ChatMessage>, last: ChatMessage)
    ensures MockLlmResponse(earlier1 + [last]) == MockLlmResponse(earlier2 + [last]) == Some(Reply(Lower(last.content)))
  {
    assert (earlier1 + [last])[|earlier1|] == last;
    assert (earlier2 + [last])[|earlier2|] == last;
  }

  /** A Farsi message with no ASCII digit and none of the keywords' letters gets the
      Farsi greeting. */
  lemma KeywordFreeFarsiGetsGreeting(message: string)
    requires forall k :: 0 <= k < |message| ==> !IsAsciiDigit(message[k]) && !IsAsciiUpper(message[k])
    requires 'd' !in message && 's' !in message && 't' !in message
    requires '\U{062A}' !in message && '\U{062F}' !in message
    requires message != [] && IsRtlChar(message[0])
    ensures Route(Lower(message)) == Converse(Rtl)
    ensures Reply(Lower(message)) == FarsiGreeting
  {
    assert forall c :: c in message ==> !IsAsciiUpper(c);
    LowerKeepsCaselessText(message);
    PersianDigitsAreNotArithmetic(message);
    KeywordFree(message);
  }

  // ----- composing the assistant messages -----

  const Apology: string := "متاسفانه خطایی رخ داد. لطفا دوباره تلاش کنید.\nSorry, an error occurred. Please try again."

  /** `clock` lists the successive readings of `Date.now()`. */
  predicate NonDecreasing(clock: seq<nat>) {
    forall i, j :: 0 <= i <= j < |clock| ==> clock[i] <= clock[j]
  }

  /** A message with neither tool flag set. */
  function Said(id: nat, content: string, timestamp: nat): (m: ChatMessage)
    ensures m.role == Assistant && !IsToolMarker(m)
  {
    ChatMessage(NatToString(id), Assistant, content, timestamp, None, None)
  }

  /** The text that reports a tool's result: the two calendar readings for the date tool,
      the printed result for the calculator, the serialised result for the other tools. */
  function Announcement(name: string, result: Json): string {
    if name == "persian_date" then
      "تاریخ امروز:\nمیلادی: " + ToJsString(Member(result, "gregorian")) + "\nشمسی: " + ToJsString(Member(result, "jalali"))
    else if name == "calculator" then "نتیجه محاسبه: " + JsStringOf(result)
    else "نتیجه: " + Stringify(result)
  }

  /** The reply to a model response, given what the tool manager made of it: the response
      itself as one message when it is not a tool request, otherwise a tool marker followed
      by the tool's result in words. */
  method Respond(raw: string, outcome: ToolResult, clock: seq<nat>) returns (replies: seq<ChatMessage>)
    requires WellShaped(outcome) && (!outcome.isToolCall ==> outcome.finalText == Some(raw))
    requires outcome.isToolCall ==> outcome.toolName.value in ToolNames
    requires |clock| >= 4 && NonDecreasing(clock)
    ensures !outcome.isToolCall ==> replies == [Said(clock[0], raw, clock[1])]
    ensures outcome.isToolCall ==>
              var name := outcome.toolName.value;
              && |replies| == 2
              && replies[0] == ChatMessage(NatToString(clock[0]), Assistant, "Tool Used: " + name, clock[1], Some(true), Some(name))
              && replies[1] == Said(clock[2] + 1, Announcement(name, outcome.toolResult.value), clock[3])
    ensures 1 <= |replies| <= 2
    ensures forall k :: 0 <= k < |replies| ==> replies[k].role == Assistant
    ensures |replies| == 2 ==> IsToolMarker(replies[0]) && !IsToolMarker(replies[1])
    ensures |replies| == 2 ==> replies[0].id != replies[1].id && replies[0].timestamp <= replies[1].timestamp
  {
    if !outcome.isToolCall {
      // `finalText || rawResponse`
      var content := if outcome.finalText.value != "" then outcome.finalText.value else raw;
      replies := [Said(clock[0], content, clock[1])];
      return;
    }
    var name := outcome.toolName.value;
    var result := outcome.toolResult.value;
    var marker := ChatMessage(NatToString(clock[0]), Assistant, "Tool Used: " + name, clock[1], Some(true), Some(name));
    var finalContent := "";
    if name == "persian_date" {
      finalContent := "تاریخ امروز:\nمیلادی: " + ToJsString(Member(result, "gregorian")) + "\nشمسی: " + ToJsString(Member(result, "jalali"));
    } else if name == "calculator" {
      finalContent := "نتیجه محاسبه: " + JsStringOf(result);
    } else {
      finalContent := "نتیجه: " + Stringify(result);
    }
    assert finalContent == Announcement(name, result);
    assert clock[1] <= clock[3];
    NatToStringDiffers(clock[0], clock[2] + 1);
    replies := [marker, Said(clock[2] + 1, finalContent, clock[3])];
  }

  /** One conversation turn: ask the stand-in model and reply to its response; when asking
      throws (there is no message to answer), the apology. */
  method SendMessageToLLM(messages: seq<ChatMessage>, host: Host, clock: seq<nat>) returns (replies: seq<ChatMessage>)
    requires |clock| >= 4 && NonDecreasing(clock)
    ensures messages == [] ==> replies == [Said(clock[0], Apology, clock[1])]
    ensures messages != [] ==>
      var raw := MockLlmResponse(messages).value;
      var outcome := HandleToolCall(raw, host);
      && (!outcome.isToolCall ==> replies == [Said(clock[0], raw, clock[1])])
      && (outcome.isToolCall ==>
            var name := outcome.toolName.value;
            && |replies| == 2
            && replies[0] == ChatMessage(NatToString(clock[0]), Assistant, "Tool Used: " + name, clock[1], Some(true), Some(name))
            && replies[1] == Said(clock[2] + 1, Announcement(name, outcome.toolResult.value), clock[3]))
    ensures 1 <= |replies| <= 2
    ensures forall k :: 0 <= k < |replies| ==> replies[k].role == Assistant
    ensures |replies| == 2 ==> IsToolMarker(replies[0]) && !IsToolMarker(replies[1])
    ensures |replies| == 2 ==> replies[0].id != replies[1].id && replies[0].timestamp <= replies[1].timestamp
  {
    var response := MockLlmResponse(messages);
    if response.None? {
      replies := [Said(clock[0], Apology, clock[1])];
    } else {
      var outcome := HandleToolCall(response.value, host);
      replies := Respond(response.value, outcome, clock);
    }
  }
}
