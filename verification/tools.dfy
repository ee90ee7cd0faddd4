/**
 * The tool registry and the tool manager: four deterministic tools and `HandleToolCall`,
 * which decides whether a model response is a tool request and, if so, runs the tool.
 * The JavaScript runtime services the tools use (`JSON.parse`, dynamic evaluation of an
 * arithmetic expression, the Persian-calendar date formatter) are fields of `Host`.
 */
module Tools {
  import opened Options
  import opened Text
  import opened Json
  import opened ChatTypes

  /** The tool names the manager dispatches on, in the order of its `switch`. */
  const ToolNames: seq<string> := ["calculator", "persian_date", "translate", "docs_qa"]

  /** The current date and time, formatted to the minute in the Gregorian and the Persian
      (Jalali) calendars. */
  datatype DateReading = DateReading(gregorian: string, jalali: string)

  /** The runtime services the tools depend on. `parse` is `JSON.parse` and `evaluate` is
      `String(new Function('return ' + e)())`; both give `None` where JavaScript throws.
      `now` is what the date formatter prints at the moment of the call. */
  datatype Host = Host(parse: string -> Option<Json>, evaluate: string -> Option<string>, now: DateReading)

  // ----- calculator -----

  const CalculatorInvalidInput: string := "خطا: ورودی نامعتبر (Invalid input)"
  const CalculatorError: string := "خطا در محاسبه (Calculation error)"

  /** A character the calculator admits: an ASCII digit, white space, or one of `+ - * / ( ) .` */
  predicate IsCalculatorChar(c: char) {
    IsAsciiDigit(c) || IsJsSpace(c) || c in "+-*/()."
  }

  /** The whitelist test: a non-empty text made of admitted characters only. */
  predicate PassesWhitelist(expression: string) {
    expression != [] && forall i :: 0 <= i < |expression| ==> IsCalculatorChar(expression[i])
  }

  /** The calculator: an expression outside the whitelist is refused before anything is
      evaluated; otherwise the evaluator's printed result, or the error text if it throws. */
  function CalculatorTool(expression: string, evaluate: string -> Option<string>): (r: string)
    ensures !PassesWhitelist(expression) ==> r == CalculatorInvalidInput
    ensures PassesWhitelist(expression) && evaluate(expression).Some? ==> r == evaluate(expression).value
    ensures PassesWhitelist(expression) && evaluate(expression).None? ==> r == CalculatorError
  {
    if !PassesWhitelist(expression) then CalculatorInvalidInput
    else match evaluate(expression)
      case None => CalculatorError
      case Some(result) => result
  }

  /** The evaluator is consulted on whitelisted text only: two evaluators that agree there
      give the same answers. */
  lemma EvaluatorSeesOnlyWhitelistedText(expression: string, ev1: string -> Option<string>, ev2: string -> Option<string>)
    requires PassesWhitelist(expression) ==> ev1(expression) == ev2(expression)
    ensures CalculatorTool(expression, ev1) == CalculatorTool(expression, ev2)
  {
  }

  /** A missing `expression` prints as "undefined" and an object as "[object Object]": the
      calculator refuses both as invalid input. */
  lemma MissingOrObjectExpressionIsRefused(args: Json, host: Host)
    requires Member(args, "expression").None? || Member(args, "expression").value.JObject?
    ensures RunTool("calculator", args, host) == Some(JString(CalculatorInvalidInput))
  {
    var printed := ToJsString(Member(args, "expression"));
    if Member(args, "expression").None? {
      assert printed[0] == 'u';
      assert !IsCalculatorChar(printed[0]);
    } else {
      assert printed[1] == 'o';
      assert !IsCalculatorChar(printed[1]);
    }
  }

  /** Persian (Extended Arabic-Indic) digits are not `\d`: an expression written with one
      is refused as invalid input. */
  lemma PersianDigitsAreRefused(expression: string, i: nat, evaluate: string -> Option<string>)
    requires i < |expression| && '\U{06F0}' <= expression[i] <= '\U{06F9}'
    ensures CalculatorTool(expression, evaluate) == CalculatorInvalidInput
  {
    assert !IsCalculatorChar(expression[i]);
  }

  // ----- persian_date -----

  /** The date tool: both calendar readings under their own keys. */
  function PersianDateTool(now: DateReading): (r: Json)
    ensures Member(r, "gregorian") == Some(JString(now.gregorian))
    ensures Member(r, "jalali") == Some(JString(now.jalali))
  {
    assert "gregorian"[0] != "jalali"[0];
    LastMemberOfPair("gregorian", JString(now.gregorian), "jalali", JString(now.jalali));
    JObject([("gregorian", JString(now.gregorian)), ("jalali", JString(now.jalali))])
  }

  // ----- translate -----

  const FaToEnPrefix: string := "[FA->EN Translation]: "
  const EnToFaPrefix: string := "[EN->FA Translation]: "

  /** The translation stub: the text behind a label naming the direction. Only the exact
      string "fa-en" selects the Farsi-to-English label. */
  function TranslateTool(text: string, direction: Option<Json>): (r: string)
    ensures |r| == |FaToEnPrefix| + |text| && r[|FaToEnPrefix|..] == text
    ensures r[..|FaToEnPrefix|] == FaToEnPrefix <==> direction == Some(JString("fa-en"))
    ensures r[..|FaToEnPrefix|] == EnToFaPrefix <==> direction != Some(JString("fa-en"))
  {
    var prefix := if direction == Some(JString("fa-en")) then FaToEnPrefix else EnToFaPrefix;
    assert (prefix + text)[..|prefix|] == prefix;
    prefix + text
  }

  // ----- docs_qa -----

  /** The knowledge base, searched in this order. */
  const Knowledge: seq<string> := [
    "Persian Lambda Chat is a bilingual AI assistant.",
    "It supports tools like calculator, date conversion, and translation.",
    "The app is built with React, TypeScript, and Tailwind CSS.",
    "RTL support is automatic based on the text content."
  ]

  /** The zero-width non-joiner of Persian orthography, inside the word for "search". */
  const Zwnj: char := '\U{200C}'

  const DocsNotFound: string := "هیچ سندی برای جست" + [Zwnj] + "وجو پیدا نشد. (No documents found matching your query.)"

  function DocsFound(sentence: string): string {
    "یافته شده در اسناد: \"" + sentence + "\""
  }

  lemma FoundDiffersFromNotFound(sentence: string)
    ensures DocsFound(sentence) != DocsNotFound
  {
    assert DocsFound(sentence)[0] == '\U{06CC}';
    assert DocsNotFound[0] == '\U{0647}';
  }

  /** A sentence answers a query when it contains it, ignoring case. */
  predicate Relevant(sentence: string, query: string) {
    Contains(Lower(sentence), Lower(query))
  }

  /** `Array.prototype.find`: the index of the first relevant sentence. */
  function FirstRelevant(sentences: seq<string>, query: string): (r: Option<nat>)
    ensures r.None? <==> forall i :: 0 <= i < |sentences| ==> !Relevant(sentences[i], query)
    ensures r.Some? ==> r.value < |sentences| && Relevant(sentences[r.value], query)
                        && forall j :: 0 <= j < r.value ==> !Relevant(sentences[j], query)
  {
    if sentences == [] then None
    else if Relevant(sentences[0], query) then Some(0)
    else match FirstRelevant(sentences[1..], query)
      case None => None
      case Some(i) => Some(i + 1)
  }

  /** The document search: the first sentence, in list order, that contains the query
      (ignoring case), quoted in the "found" template; the fixed sentence when none does. */
  function DocsQaTool(query: string): (r: string)
    ensures r == DocsNotFound <==> forall i :: 0 <= i < |Knowledge| ==> !Relevant(Knowledge[i], query)
    ensures forall i :: 0 <= i < |Knowledge| && Relevant(Knowledge[i], query)
                        && (forall j :: 0 <= j < i ==> !Relevant(Knowledge[j], query))
                        ==> r == DocsFound(Knowledge[i])
  {
    // every sentence of the knowledge base is non-empty, hence truthy
    match FirstRelevant(Knowledge, query)
    case Some(i) =>
      FoundDiffersFromNotFound(Knowledge[i]);
      DocsFound(Knowledge[i])
    case None => DocsNotFound
  }

  /** Every text includes the empty string, so an empty query finds the first sentence. */
  lemma EmptyQueryFindsFirstSentence()
    ensures DocsQaTool("") == DocsFound(Knowledge[0])
  {
    assert Relevant(Knowledge[0], "");
  }

  // ----- the tool manager -----

  /** `replace(/```json/g, '')`, then `replace(/```/g, '')`, then `trim()`. */
  function Clean(rawOutput: string): (r: string)
    ensures !Contains(r, Fence)
  {
    var unfenced := DeleteAll(DeleteAll(rawOutput, ["```json"]), [Fence]);
    NoFenceAfterDelete(DeleteAll(rawOutput, ["```json"]));
    TrimKeepsAbsentText(unfenced, Fence);
    Trim(unfenced)
  }

  /** Starts with `{` and ends with `}`: the only texts handed to the parser. */
  predicate Braced(s: string) {
    s != [] && s[0] == '{' && s[|s| - 1] == '}'
  }

  /** A parsed value the manager accepts as a tool request: a known tool name under `tool`,
      a truthy `args`, and for `docs_qa` a string `query` (on anything else `toLowerCase`
      throws and the manager falls back to plain text). */
  predicate IsToolRequest(parsed: Json) {
    var tool := Member(parsed, "tool");
    var args := Member(parsed, "args");
    && Truthy(args)
    && tool.Some? && tool.value.JString? && tool.value.s in ToolNames
    && (tool.value.s == "docs_qa" ==> Member(args.value, "query").Some? && Member(args.value, "query").value.JString?)
  }

  /** The `switch` on the tool name; `None` for an unknown name or when the tool throws.
      Arguments reach the calculator and the translator through JavaScript's string
      conversion (a missing argument prints as "undefined"). */
  function RunTool(name: string, args: Json, host: Host): (r: Option<Json>)
    ensures r.Some? <==> name in ToolNames
                         && (name == "docs_qa" ==> Member(args, "query").Some? && Member(args, "query").value.JString?)
  {
    if name == "calculator" then
      Some(JString(CalculatorTool(ToJsString(Member(args, "expression")), host.evaluate)))
    else if name == "persian_date" then
      Some(PersianDateTool(host.now))
    else if name == "translate" then
      Some(JString(TranslateTool(ToJsString(Member(args, "text")), Member(args, "direction"))))
    else if name == "docs_qa" then
      match Member(args, "query")
      case Some(JString(query)) => Some(JString(DocsQaTool(query)))
      case _ => None
    else None
  }

  /** The tool manager. It never fails: every outcome other than a tool call is plain text
      carrying the original response (not the cleaned one). */
  function HandleToolCall(rawOutput: string, host: Host): (r: ToolResult)
    ensures WellShaped(r)
    ensures !r.isToolCall ==> r.finalText == Some(rawOutput)
    ensures r.isToolCall <==> Braced(Clean(rawOutput)) && host.parse(Clean(rawOutput)).Some?
                              && IsToolRequest(host.parse(Clean(rawOutput)).value)
    ensures r.isToolCall ==> r.toolName.value in ToolNames
                             && Member(host.parse(Clean(rawOutput)).value, "tool") == Some(JString(r.toolName.value))
                             && RunTool(r.toolName.value, Member(host.parse(Clean(rawOutput)).value, "args").value, host)
                                == Some(r.toolResult.value)
  {
    var clean := Clean(rawOutput);
    if !Braced(clean) then PlainText(rawOutput)
    else match host.parse(clean)
      case None => PlainText(rawOutput)
      case Some(parsed) =>
        var tool := Member(parsed, "tool");
        var args := Member(parsed, "args");
        if !(Truthy(tool) && Truthy(args)) then PlainText(rawOutput)
        else match tool.value
          case JString(name) =>
            (match RunTool(name, args.value, host)
             case Some(result) => ToolCalled(name, result)
             case None => PlainText(rawOutput))
          case _ => PlainText(rawOutput)
  }

  /** Only the cleaned text, and only when it is braced, is ever parsed: two parsers that
      agree on it give the same outcome, and when it is not braced the parser is irrelevant. */
  lemma ParserSeesOnlyBracedCleanText(rawOutput: string, parse1: string -> Option<Json>, parse2: string -> Option<Json>,
                                      evaluate: string -> Option<string>, now: DateReading)
    requires Braced(Clean(rawOutput)) ==> parse1(Clean(rawOutput)) == parse2(Clean(rawOutput))
    ensures HandleToolCall(rawOutput, Host(parse1, evaluate, now)) == HandleToolCall(rawOutput, Host(parse2, evaluate, now))
  {
  }

  lemma OpeningFenceDeleted(body: string)
    requires '`' !in body
    ensures DeleteAll("```json" + body + Fence, ["```json"]) == body + Fence
  {
    var s := "```json" + body + Fence;
    assert s[..7] == "```json";
    assert LeadingMatch(s, ["```json"]) == 7;
    assert s[7..] == body + Fence;
    DeleteAllKeepsPrefix(body, Fence, ["```json"], '`');
    DeleteAllKeepsTextWithoutChar(Fence, ["```json"], 'j');
  }

  lemma ClosingFenceDeleted(body: string)
    requires '`' !in body
    ensures DeleteAll(body + Fence, [Fence]) == body
  {
    DeleteAllKeepsPrefix(body, Fence, [Fence], '`');
    assert LeadingMatch(Fence, [Fence]) == 3;
    assert Fence[3..] == [];
    assert body + [] == body;
  }

  /** A request wrapped in a ```json fence is unwrapped before parsing. */
  lemma FencedRequestIsUnwrapped(body: string)
    requires '`' !in body
    ensures Clean("```json" + body + Fence) == Trim(body)
  {
    OpeningFenceDeleted(body);
    ClosingFenceDeleted(body);
  }

  /** The `json` tag is deleted only together with the fence it follows. */
  lemma {:induction false} BareFenceSurvivesJsonPass(tail: string)
    requires '`' !in tail && !("json" <= tail)
    ensures DeleteAll(Fence + tail, ["```json"]) == Fence + tail
  {
    var alts := ["```json"];
    var u0 := Fence + tail;
    var u1 := u0[1..];
    var u2 := u1[1..];
    assert u2 == ['`'] + tail;
    assert u2[1..] == tail;
    assert |u0| >= 7 ==> u0[3..7] == tail[..4];
    assert LeadingMatch(u0, alts) == 0;
    assert |u1| > 2 ==> u1[2] != '`' by { if |u1| > 2 { assert u1[2] == tail[0]; } }
    assert LeadingMatch(u1, alts) == 0;
    assert |u2| > 1 ==> u2[1] != '`' by { if |u2| > 1 { assert u2[1] == tail[0]; } }
    assert LeadingMatch(u2, alts) == 0;
    DeleteAllKeepsTextWithoutChar(tail, alts, '`');
    assert DeleteAll(u2, alts) == [u2[0]] + DeleteAll(tail, alts) == u2;
    assert DeleteAll(u1, alts) == [u1[0]] + DeleteAll(u2, alts) == u1;
    assert DeleteAll(u0, alts) == [u0[0]] + DeleteAll(u1, alts) == u0;
  }

  /** Fences are deleted anywhere in the response, not only around it: a fence between two
      fence-free parts disappears from the text that gets parsed. */
  lemma FenceAnywhereIsDeleted(head: string, tail: string)
    requires '`' !in head && '`' !in tail && !("json" <= tail)
    ensures Clean(head + Fence + tail) == Trim(head + tail)
  {
    var s := head + Fence + tail;
    assert s == head + (Fence + tail);
    DeleteAllKeepsPrefix(head, Fence + tail, ["```json"], '`');
    BareFenceSurvivesJsonPass(tail);
    DeleteAllKeepsPrefix(head, Fence + tail, [Fence], '`');
    assert LeadingMatch(Fence + tail, [Fence]) == 3 by {
      assert (Fence + tail)[..3] == Fence;
    }
    assert (Fence + tail)[3..] == tail;
    DeleteAllKeepsTextWithoutChar(tail, [Fence], '`');
  }

  /** A serialised object none of whose strings holds a backtick reaches the parser as it is,
      and passes the brace check. */
  lemma SerialisedObjectIsParsedAsIs(j: Json)
    requires j.JObject? && Avoids(j, '`')
    ensures Clean(Stringify(j)) == Stringify(j) && Braced(Stringify(j))
  {
    var s := Stringify(j);
    StringifyKeepsBacktickOut(j);
    DeleteAllKeepsTextWithoutChar(s, ["```json"], '`');
    DeleteAllKeepsTextWithoutChar(s, [Fence], '`');
    assert s[0] == '{' && s[|s| - 1] == '}';
    TrimKeepsUnpaddedText(s);
  }

  /** A response without backticks that does not start with `{` (nor with white space) is
      plain text, whatever the parser would say. */
  lemma UnbracedResponseIsPlainText(rawOutput: string, host: Host)
    requires '`' !in rawOutput && rawOutput != [] && !IsJsSpace(rawOutput[0]) && rawOutput[0] != '{'
    ensures HandleToolCall(rawOutput, host) == PlainText(rawOutput)
  {
    DeleteAllKeepsTextWithoutChar(rawOutput, ["```json"], '`');
    DeleteAllKeepsTextWithoutChar(rawOutput, [Fence], '`');
    assert SkipSpaceForward(rawOutput, 0) == 0;
    assert Trim(rawOutput)[0] == rawOutput[0];
  }

  /** A response that cleaning leaves as it is and that parses to a request naming a known
      tool, with arguments the tool accepts, is dispatched to that tool. */
  lemma ParsedRequestIsDispatched(rawOutput: string, name: string, args: Json, host: Host)
    requires Clean(rawOutput) == rawOutput && Braced(rawOutput)
    requires host.parse(rawOutput) == Some(JObject([("tool", JString(name)), ("args", args)]))
    requires args.JObject? && RunTool(name, args, host).Some?
    ensures HandleToolCall(rawOutput, host) == ToolCalled(name, RunTool(name, args, host).value)
  {
    LastMemberOfPair("tool", JString(name), "args", args);
    var parsed := JObject([("tool", JString(name)), ("args", args)]);
    assert Member(parsed, "tool") == Some(JString(name));
    assert Member(parsed, "args") == Some(args);
    assert Truthy(Some(args));
    assert IsToolRequest(parsed);
    var r := HandleToolCall(rawOutput, host);
    assert r.isToolCall && r.toolName == Some(name);
  }
}
