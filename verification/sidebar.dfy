/**
 * The sidebar's view of the tools: the four tool cards with their example prompts, and the
 * classification of each tool as in use now, used recently or idle, from the time of its
 * last use and the current time.
 */
module Sidebar {
  import opened Options
  import opened Text
  import opened ChatTypes
  import opened Tools
  import opened LlmClient

  /** A tool card: the tool's id and the prompts a click puts in the input. */
  datatype ToolCard = ToolCard(id: string, name: string, nameFa: string, examplePrompt: string, examplePromptEn: string)

  /** The calculator's Farsi example prompt. */
  const CalculatorPromptFa: string := "محاسبه کن: ۲۵ * ۴ + ۱۰"

  const Cards: seq<ToolCard> := [
    ToolCard("calculator", "Calculator", "ماشین حساب", CalculatorPromptFa, "Calculate 25 * 4 + 10"),
    ToolCard("persian_date", "Persian Date", "تاریخ شمسی", "تاریخ امروز چیست؟", "What is today's date?"),
    ToolCard("translate", "Translator", "مترجم", "ترجمه کن: سلام دنیا", "Translate \"Hello World\" to Farsi"),
    ToolCard("docs_qa", "Docs Q&A", "جستجو در اسناد", "جستجو در اسناد درباره Lambda Chat", "Search docs about Lambda Chat")
  ]

  /** The cards list exactly the tools the tool manager dispatches, in the same order. */
  lemma CardsAreTheTools()
    ensures |Cards| == |ToolNames|
    ensures forall i :: 0 <= i < |Cards| ==> Cards[i].id == ToolNames[i]
  {
  }

  /** Milliseconds a tool counts as in use, and as recently used, after its last use. */
  const ActiveWindow: int := 30000
  const RecentWindow: int := 300000

  /** `!activeTools[toolId]`: the tool has no entry, or a falsy one (zero). */
  predicate Unused(activeTools: map<string, int>, toolId: string) {
    toolId !in activeTools || activeTools[toolId] == 0
  }

  /** In use: last used less than 30 seconds before `now`. */
  function IsToolActive(activeTools: map<string, int>, toolId: string, now: int): (r: bool)
    ensures r <==> !Unused(activeTools, toolId) && now - activeTools[toolId] < 30000
  {
    if Unused(activeTools, toolId) then false
    else
      var timeSinceUse := now - activeTools[toolId];
      timeSinceUse < ActiveWindow
  }

  /** Recently used: last used between 30 seconds and 5 minutes before `now`. */
  function IsToolRecentlyUsed(activeTools: map<string, int>, toolId: string, now: int): (r: bool)
    ensures r <==> !Unused(activeTools, toolId) && 30000 <= now - activeTools[toolId] < 300000
  {
    if Unused(activeTools, toolId) then false
    else
      var timeSinceUse := now - activeTools[toolId];
      timeSinceUse >= ActiveWindow && timeSinceUse < RecentWindow
  }

  datatype ToolStatus = Active | Recent | Idle

  /** How a card's indicator shows a tool. The two tests read the clock separately:
      `nowActive` for the in-use test, then `nowRecent` for the recently-used test. */
  function StatusOf(activeTools: map<string, int>, toolId: string, nowActive: int, nowRecent: int): ToolStatus {
    if IsToolActive(activeTools, toolId, nowActive) then Active
    else if IsToolRecentlyUsed(activeTools, toolId, nowRecent) then Recent
    else Idle
  }

  /** With one clock reading, a tool is never both in use and recently used; an unused tool,
      and one last used five minutes or more ago, is idle. */
  lemma StatusesExclude(activeTools: map<string, int>, toolId: string, now: int)
    ensures !(IsToolActive(activeTools, toolId, now) && IsToolRecentlyUsed(activeTools, toolId, now))
    ensures Unused(activeTools, toolId) ==> StatusOf(activeTools, toolId, now, now) == Idle
    ensures !Unused(activeTools, toolId) && now - activeTools[toolId] >= 300000 ==> StatusOf(activeTools, toolId, now, now) == Idle
  {
  }

  /** The two readings can straddle the 30-second boundary: then both tests hold at once
      (the indicator shows the tool in use; the card's other styling applies both looks). */
  lemma SeparateReadingsCanOverlap(t: int)
    requires t != 0
    ensures IsToolActive(map["calculator" := t], "calculator", t + 29999)
    ensures IsToolRecentlyUsed(map["calculator" := t], "calculator", t + 30000)
    ensures StatusOf(map["calculator" := t], "calculator", t + 29999, t + 30000) == Active
  {
  }

  /** The window boundaries: 29 999 ms after use a tool is in use, at exactly 30 000 ms it is
      recent, at exactly 300 000 ms it is idle. */
  lemma WindowBoundaries(t: int)
    requires t != 0
    ensures StatusOf(map["calculator" := t], "calculator", t + 29999, t + 29999) == Active
    ensures StatusOf(map["calculator" := t], "calculator", t + 30000, t + 30000) == Recent
    ensures StatusOf(map["calculator" := t], "calculator", t + 300000, t + 300000) == Idle
  {
  }

  /** A tool whose last use has timestamp zero counts as never used, even at time zero. */
  lemma ZeroTimestampIsUnused(toolId: string, nowActive: int, nowRecent: int)
    ensures StatusOf(map[toolId := 0], toolId, nowActive, nowRecent) == Idle
  {
  }

  // ----- what the example prompts do -----

  lemma CalculatorPromptHasNoAsciiDigitOrCapital(prompt: string)
    requires prompt == CalculatorPromptFa
    ensures forall k :: 0 <= k < |prompt| ==> !IsAsciiDigit(prompt[k]) && !IsAsciiUpper(prompt[k])
  {
  }

  lemma CalculatorPromptLacksKeywordLetters(prompt: string)
    requires prompt == CalculatorPromptFa
    ensures 'd' !in prompt && 's' !in prompt && 't' !in prompt
    ensures '\U{062A}' !in prompt && '\U{062F}' !in prompt
    ensures prompt != [] && IsRtlChar(prompt[0])
  {
  }

  /** The Farsi calculator example writes its numbers in Persian digits, which are not
      `\d`; with no other keyword in it, the stand-in model answers a message sent with
      that prompt with the Farsi greeting instead of calling the calculator. */
  lemma PersianCalculatorExampleGetsGreeting(earlier: seq<ChatMessage>, message: ChatMessage)
    requires message.content == Cards[0].examplePrompt
    ensures MockLlmResponse(earlier + [message]) == Some(FarsiGreeting)
  {
    CalculatorPromptHasNoAsciiDigitOrCapital(message.content);
    CalculatorPromptLacksKeywordLetters(message.content);
    KeywordFreeFarsiGetsGreeting(message.content);
    OnlyLastMessageMatters(earlier, [], message);
  }
}
