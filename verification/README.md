# Persian Lambda Chat — tool dispatch and response composition

This project models the core of a bilingual (Farsi/English) chat front-end. A user message goes to a
stand-in language model. The model reads the last message, lower-cases it and routes it by keywords:
- arithmetic goes to the calculator;
- "date" or "time" goes to the Persian calendar;
- "translate" goes to the translator;
- "docs" or "search" goes to the document lookup;
- anything else gets a greeting in the message's writing direction.

A tool request is written as JSON. The tool manager strips Markdown code fences from the reply, checks
that it is braced and parses it. It accepts a known tool name with truthy arguments and runs the tool.
The client then turns the outcome into assistant messages: the reply itself, or a tool marker followed
by the tool's result in words. The chat screen appends the user's message and the replies to the log.
It keeps a map from each tool to the timestamp of its last marker. The sidebar uses that map to show
each tool as in use (under 30 s), recently used (30 s to 5 min) or idle.

Modules (one file each):
- `Options` (`options.dfy`): the option type.
- `Text` (`text.dfy`): the JavaScript string operations the core relies on, namely `toLowerCase`, `trim`,
  `includes`, global `replace` with an empty replacement, and `Number#toString`.
- `Json` (`json.dfy`): the values `JSON.parse` yields, property access, truthiness, `String(v)` and
  `JSON.stringify`.
- `ChatTypes` (`chat_types.dfy`): `src/types/chat.ts`.
- `Tools` (`tools.dfy`): `src/lib/tools.ts`.
- `LlmClient` (`llm_client.dfy`): `src/lib/llmClient.ts`.
- `App` (`app.dfy`): `src/App.tsx`. The screen state is the class `ChatApp`, and the active-tools effect
  is a method with a loop.
- `Sidebar` (`sidebar.dfy`): the tool cards and the status tests of `src/components/Sidebar.tsx`.

Some runtime services are parameters of the `Tools.Host` datatype: `JSON.parse`, the dynamic evaluation
of a calculator expression, and the calendar formatter's output at the time of the call. When the parser
or the evaluator throws, the model gives `None`. The date formatter is taken never to throw (see "## Left
out"). `Date.now()` is a parameter too: the non-decreasing sequence of its successive
readings.

Behaviour of the code worth knowing:
- Code fences are deleted anywhere in the reply, not only around it
  (src/lib/tools.ts:69, `Tools.FenceAnywhereIsDeleted`).
- A tool request is accepted on a truthy `tool` and a truthy `args` (src/lib/tools.ts:77). `args`
  need not be an object. An `args` without the expected member passes "undefined" to the calculator
  or the translator.
- A `docs_qa` request whose `query` is not a string makes the tool throw (src/lib/tools.ts:57 and 90).
  The manager then answers with plain text.
- The expression sent to the calculator is the leftmost run of `[\d\s+\-*/]`, not the arithmetic the
  routing pattern matched (src/lib/llmClient.ts:16). For "what is 2+2" that run is the single space
  after "what" (`LlmClient.QuestionSendsSpaceToCalculator`).
- The Farsi calculator example in the sidebar writes its numbers in Persian digits, which `\d` does
  not match (src/components/Sidebar.tsx:24). It therefore gets the Farsi greeting
  (`Sidebar.PersianCalculatorExampleGetsGreeting`).

## Model

| member | source | states |
|---|---|---|
| ChatTypes.ParseRole | src/types/chat.ts:1 | a role name is one of "system", "user", "assistant"; any other text is refused |
| ChatTypes.RoleNamesRoundTrip | src/types/chat.ts:1 | reading back a role's name gives the role |
| Text.Lower | src/lib/llmClient.ts:8 | `toLowerCase` keeps the length and maps each character on its own |
| Text.Trim | src/lib/tools.ts:69 | `trim` returns a slice of its input whose cut-off start and end are all white space, and which itself neither starts nor ends with white space |
| Text.Contains | src/lib/llmClient.ts:20 | `includes` (no contract of its own; characterised by `Text.ContainsIffOccurs`) |
| Text.ContainsIffOccurs | src/lib/llmClient.ts:20 | `includes` holds exactly when the text has a slice equal to the sought text |
| Text.DeleteAll | src/lib/tools.ts:69 | a global replace with the empty string never lengthens the text |
| Text.NoFenceAfterDelete | src/lib/tools.ts:69 | after deleting every ``` left to right, no ``` remains (deletion cannot create a new one) |
| Text.NatToString | src/lib/llmClient.ts:63 | `Date.now().toString()` is a non-empty string of ASCII digits |
| Text.NatToStringInjective | src/lib/llmClient.ts:75-92 | different clock readings print as different ids |
| Text.IntToString | src/lib/tools.ts:12 | `String` of an integer is non-empty; digits only for a non-negative number, a minus sign and digits otherwise |
| Json.LastMember | src/lib/tools.ts:76 | `JSON.parse` keeps the last of duplicate keys: absent exactly when no member has the key, otherwise the last such member |
| Json.Member | src/lib/tools.ts:77 | `parsed.tool`, `args.expression` and the like (no contract of its own; the last member with the key, as `Json.LastMember` states, or `undefined` on a non-object) |
| Json.Truthy | src/lib/tools.ts:77 | JavaScript truthiness of `parsed.tool` and `parsed.args` (no contract of its own; `Tools.HandleToolCall` and `Tools.ParsedRequestIsDispatched` state what it lets through) |
| Json.JsStringOf | src/lib/tools.ts:12 | `String(v)`: a non-negative number prints as ASCII digits only |
| Json.ToJsString | src/lib/tools.ts:81 | `String(v)` of a possibly missing member, "undefined" when missing (no contract of its own; `Tools.MissingOrObjectExpressionIsRefused` states its effect on the calculator) |
| Json.Stringify | src/lib/llmClient.ts:13-41 | `JSON.stringify` prints an object inside braces, an array inside brackets and a string inside quotes |
| Json.StringifyKeepsBacktickOut | src/lib/llmClient.ts:13-41 | `JSON.stringify` of a value with no backtick in its strings or keys has no backtick, so no fence appears in a serialised request |
| Tools.CalculatorTool | src/lib/tools.ts:4-16 | text outside `^[\d\s+\-*/().]+$` is refused before evaluation; otherwise the evaluator's printed result, or the calculation error when it throws |
| Tools.PassesWhitelist | src/lib/tools.ts:7 | `^[\d\s+\-*/().]+$` (no contract of its own; `Tools.EvaluatorSeesOnlyWhitelistedText` and `Tools.PersianDigitsAreRefused` state its effect) |
| Tools.EvaluatorSeesOnlyWhitelistedText | src/lib/tools.ts:7-11 | the evaluator is consulted only on whitelisted text |
| Tools.PersianDigitsAreRefused | src/lib/tools.ts:7-9 | an expression holding a Persian digit is refused as invalid input |
| Tools.MissingOrObjectExpressionIsRefused | src/lib/tools.ts:77-82 | a calculator request whose `expression` is missing or an object prints as "undefined" or "[object Object]" and is refused as invalid input |
| Tools.PersianDateTool | src/lib/tools.ts:19-44 | the result holds the Gregorian reading under `gregorian` and the Jalali reading under `jalali` |
| Tools.TranslateTool | src/lib/tools.ts:47-51 | the text behind a label; the label is FA->EN exactly when the direction is the string "fa-en", EN->FA otherwise |
| Tools.FirstRelevant | src/lib/tools.ts:57 | `find`: the first sentence that contains the query ignoring case, or none when no sentence does |
| Tools.DocsQaTool | src/lib/tools.ts:54-62 | the not-found text exactly when no sentence matches; otherwise the first matching sentence in the found template |
| Tools.EmptyQueryFindsFirstSentence | src/lib/tools.ts:57-59 | an empty query finds the first sentence |
| Tools.Clean | src/lib/tools.ts:69 | the cleaned text holds no ``` |
| Tools.Braced | src/lib/tools.ts:70 | the `startsWith('{')`/`endsWith('}')` test (no contract of its own; `Tools.HandleToolCall`, `Tools.SerialisedObjectIsParsedAsIs` and `Tools.UnbracedResponseIsPlainText` state its effect) |
| Tools.RunTool | src/lib/tools.ts:79-97 | the switch yields a result exactly for the four tool names, except `docs_qa` without a string query (which throws) |
| Tools.HandleToolCall | src/lib/tools.ts:65-114 | a tool call exactly when the cleaned text is braced, parses, and names a known tool with truthy arguments that the tool accepts; then the name and result come from that parse; otherwise plain text carrying the raw reply |
| Tools.ParserSeesOnlyBracedCleanText | src/lib/tools.ts:69-76 | only the cleaned, braced text is ever parsed |
| Tools.FencedRequestIsUnwrapped | src/lib/tools.ts:69 | a request fenced as ```json … ``` is cleaned to the trimmed request |
| Tools.BareFenceSurvivesJsonPass | src/lib/tools.ts:69 | the first pass deletes ``` only when `json` follows it |
| Tools.FenceAnywhereIsDeleted | src/lib/tools.ts:69 | a fence in the middle of the text is deleted too, joining the text around it |
| Tools.SerialisedObjectIsParsedAsIs | src/lib/tools.ts:69-70 | a serialised object without backticks passes cleaning unchanged and is braced |
| Tools.UnbracedResponseIsPlainText | src/lib/tools.ts:70-75 | a reply without backticks whose first character is neither white space nor `{` is plain text, whatever the parser would say |
| Tools.ParsedRequestIsDispatched | src/lib/tools.ts:77-102 | a parsed `{tool, args}` whose tool accepts the arguments is a call of that tool with its result |
| LlmClient.DetectDirection | src/lib/llmClient.ts:50-53 | right-to-left exactly when some character lies in an Arabic-script range |
| LlmClient.DirectionIgnoresCase | src/lib/llmClient.ts:8 | lower-casing never changes the direction |
| LlmClient.HasArithmetic | src/lib/llmClient.ts:12 | `(\d+)\s*[\+\-\*\/]\s*(\d+)` matches somewhere (no contract of its own; `LlmClient.PersianDigitsAreNotArithmetic` and `LlmClient.ArithmeticNeverFallsBack` state its consequences) |
| LlmClient.RunStart | src/lib/llmClient.ts:16 | the match starts at the first character of the class |
| LlmClient.LeadingRun | src/lib/llmClient.ts:16 | the `+` takes the longest run of class characters |
| LlmClient.FirstRun | src/lib/llmClient.ts:16 | no match exactly when no character is in the class; otherwise the text from the first such character on, made of class characters only and extended as far as the next character allows (the greedy `+`) |
| LlmClient.CalculatorExpression | src/lib/llmClient.ts:16 | the first run or "2+2" (no contract of its own; `LlmClient.ArithmeticNeverFallsBack` and `LlmClient.QuestionSendsSpaceToCalculator` state what it gives) |
| LlmClient.ArithmeticNeverFallsBack | src/lib/llmClient.ts:12-16 | when the arithmetic pattern matches, the "2+2" fallback is never used |
| LlmClient.KeywordFree | src/lib/llmClient.ts:20-35 | a message lacking d, s, t, teh and dal mentions no keyword |
| LlmClient.Route | src/lib/llmClient.ts:11-48 | the routing priority (arithmetic, date, translate, docs, conversation) in both directions; the extracted expression, translated text and query; the conversational direction |
| LlmClient.ArgsOf | src/lib/llmClient.ts:15-39 | the arguments written are always an object |
| LlmClient.ArgsAreAccepted | src/lib/llmClient.ts:13-41 | each tool accepts the arguments written for it; translation always runs English to Farsi |
| LlmClient.Reply | src/lib/llmClient.ts:12-48 | the stand-in's reply to a lower-cased message (no contract of its own; `LlmClient.RequestIsDispatched`, `LlmClient.ToolIntentIsDispatched` and `LlmClient.ConversationIsPlainText` state how the tool manager reads it) |
| LlmClient.MockLlmResponse | src/lib/llmClient.ts:6-49 | no reply (a throw) exactly for an empty conversation; otherwise the reply to the last message, lower-cased |
| LlmClient.CarriedTextComesFromMessage | src/lib/llmClient.ts:16-39 | the text a request carries is taken from the message |
| LlmClient.RequestIsDispatched | src/lib/llmClient.ts:13-41 | each request the stand-in writes is a call of the intended tool with the intended result |
| LlmClient.ToolIntentIsDispatched | src/lib/llmClient.ts:57-60 | a backtick-free message routed to a tool makes the reply a call of that tool |
| LlmClient.ConversationIsPlainText | src/lib/llmClient.ts:45-48 | a greeting is always plain text |
| LlmClient.QuestionSendsSpaceToCalculator | src/lib/llmClient.ts:12-16 | "what is 2+2" sends the single space " " to the calculator |
| LlmClient.PersianDigitsAreNotArithmetic | src/lib/llmClient.ts:12 | a message without ASCII digits never takes the arithmetic route |
| LlmClient.OnlyLastMessageMatters | src/lib/llmClient.ts:7 | earlier messages never change the reply |
| LlmClient.KeywordFreeFarsiGetsGreeting | src/lib/llmClient.ts:45-46 | a keyword-free Farsi message without ASCII digits gets the Farsi greeting |
| LlmClient.Said | src/lib/llmClient.ts:91-96 | a reply message is the assistant's and is no tool marker |
| LlmClient.Announcement | src/lib/llmClient.ts:82-90 | the result in words: the two date readings, the calculator's text, or `JSON.stringify` of any other result (no contract of its own; `LlmClient.Respond` states where it goes) |
| LlmClient.Respond | src/lib/llmClient.ts:60-97 | plain text gives one message with the raw reply; a tool call gives the marker, then the result in words; ids differ and timestamps do not decrease |
| LlmClient.SendMessageToLLM | src/lib/llmClient.ts:54-107 | the apology when there is no message to answer; otherwise what the reply to the last message composes into; one or two assistant messages, the marker first |
| App.Welcome | src/App.tsx:10-15 | the opening message is the assistant's welcome and no tool marker |
| App.ToolMessages | src/App.tsx:31 | the filter keeps exactly the log's tool markers |
| App.ToolMessagesOfAppend | src/App.tsx:31 | the filter keeps log order: the markers of two joined logs are those of the first followed by those of the second |
| App.ActiveToolsOf | src/App.tsx:32-37 | the fold that builds the map (no contract of its own; `App.ActiveToolsKeys` and `App.ActiveToolsHoldLastWrite` characterise it) |
| App.FilteringKeepsActiveTools | src/App.tsx:31-37 | filtering before the fold changes nothing |
| App.ActiveToolsKeys | src/App.tsx:30-39 | the map has a key exactly for each tool with a marker in the log |
| App.ActiveToolsHoldLastWrite | src/App.tsx:33-37 | a tool's entry is the timestamp of its last marker |
| App.MarkerThenReplyIsActive | src/App.tsx:30-39 | after a tool exchange the tool maps to its marker's timestamp |
| App.UnmarkedMessagesKeepActiveTools | src/App.tsx:30-39 | messages that are not markers never change the map |
| App.ChatApp.constructor | src/App.tsx:10-19 | the welcome message alone, nothing loading, sidebar closed, empty input, no tool in use |
| App.ChatApp.RefreshActiveTools | src/App.tsx:30-39 | the loop rebuilds the map as the fold over the log; nothing else changes |
| App.ChatApp.Submit | src/App.tsx:47-48 | the user's message is appended and loading starts |
| App.ChatApp.Finish | src/App.tsx:50-56 | the replies, if any, are appended in order and loading stops either way |
| App.ChatApp.HandleSendMessage | src/App.tsx:40-57 | the log gains the user's message and then the replies; a tool exchange leaves the tool mapped to its marker's timestamp; loading ends |
| App.ChatApp.HandleToolClick | src/App.tsx:58-61 | the input holds the example prompt and the sidebar is closed; nothing else changes |
| Sidebar.CardsAreTheTools | src/components/Sidebar.tsx:16-56 | the cards list exactly the dispatched tools, in order |
| Sidebar.IsToolActive | src/components/Sidebar.tsx:57-61 | in use exactly when there is a non-zero entry less than 30 000 ms before now |
| Sidebar.IsToolRecentlyUsed | src/components/Sidebar.tsx:62-66 | recent exactly when there is a non-zero entry 30 000 to 299 999 ms before now |
| Sidebar.StatusOf | src/components/Sidebar.tsx:112-115 | the indicator's choice between in use, recent and idle (no contract of its own; `Sidebar.StatusesExclude`, `Sidebar.SeparateReadingsCanOverlap` and `Sidebar.WindowBoundaries` characterise it) |
| Sidebar.StatusesExclude | src/components/Sidebar.tsx:57-66 | for a single clock reading, never both in use and recent; unused tools and tools last used five minutes or more ago are idle |
| Sidebar.SeparateReadingsCanOverlap | src/components/Sidebar.tsx:57-66 | the two tests read the clock separately, and readings on either side of the 30 s boundary make both hold; the indicator then shows the tool in use |
| Sidebar.WindowBoundaries | src/components/Sidebar.tsx:60-65 | the status at 29 999, 30 000 and 300 000 ms after use |
| Sidebar.ZeroTimestampIsUnused | src/components/Sidebar.tsx:58-63 | a zero timestamp is falsy and counts as unused |
| Sidebar.PersianCalculatorExampleGetsGreeting | src/components/Sidebar.tsx:24 | the Farsi calculator example gets the Farsi greeting, not a calculation |

## Left out

- The dynamic evaluation (`new Function`) and its floating-point arithmetic. The evaluator is a `Host` parameter.
- `Intl.DateTimeFormat`: the two formatted readings are the `DateReading` parameter. The formatter is taken never to throw. In the source, a throw inside `persianDateTool` would be caught by the tool manager and give plain text; the model has no such case.
- The internals of `JSON.parse`. Lemmas that connect the stand-in model to the tool manager require the parser to read the serialised request back.
- JSON numbers are unbounded integers; fractions and exponents are not modelled. JavaScript numbers are doubles, so integers above 2^53 lose precision in the source and the model does not. `String` prints numbers of 1e21 and above in exponent form ("1e+21"), which the calculator whitelist refuses; the model prints all the digits, which pass it.
- `toLowerCase` is modelled on ASCII letters only. The `i` flag of the keyword-deleting patterns is therefore left out, since the text is already lower-cased.
- The 1.5 s simulated network delay and the asynchrony: each send runs to completion before the next, so overlapping sends are not modelled.
- React rendering, scrolling and styling; the ChatInput, ChatMessage and TypingIndicator components; `../lib/utils`. These are presentation and are not part of this model.
- `console.error` logging in the error paths.
- `ChatApp.activeTools` is a `map`. A tool named `__proto__` would behave differently on a JavaScript object.
- App.ChatApp.HandleSendMessage: does not restate the reply contents; `LlmClient.SendMessageToLLM` states them.
- LlmClient.Respond: takes the tool manager's outcome as an argument instead of calling it; `SendMessageToLLM` makes that call.
- `Date.now()`: the clock is a sequence of readings that the caller supplies.
