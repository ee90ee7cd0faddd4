/**
 * The chat screen's state: the conversation log, the loading flag, the sidebar and input
 * field, and the map of tools the log shows in use. The log only grows; the map is rebuilt
 * from the log after every change, as the screen's effect on the log does.
 */
module App {
  import opened Options
  import opened Text
  import opened ChatTypes
  import opened Tools
  import opened LlmClient

  const WelcomeText: string :=
    "سلام! من دستیار هوشمند شما هستم. " + "چطور می" + [Zwnj] + "توانم کمک کنم؟\n"
    + "Hello! I am your smart assistant. " + "How can I help you?"

  /** The conversation the screen opens with. */
  function Welcome(now: int): (m: ChatMessage)
    ensures m.id == "welcome" && m.role == Assistant && !IsToolMarker(m)
  {
    ChatMessage("welcome", Assistant, WelcomeText, now, None, None)
  }

  // ----- the active-tools projection -----

  /** The tool markers of the log, in log order. */
  function ToolMessages(log: seq<ChatMessage>): (r: seq<ChatMessage>)
    ensures |r| <= |log|
    ensures forall m :: m in r <==> m in log && IsToolMarker(m)
  {
    if log == [] then []
    else
      var init := log[..|log| - 1];
      var rest := ToolMessages(init);
      assert forall m :: m in log <==> m in init || m == log[|log| - 1];
      if IsToolMarker(log[|log| - 1]) then rest + [log[|log| - 1]] else rest
  }

  /** Filtering keeps the markers in log order: the markers of a log made of two parts are
      those of the first part followed by those of the second. */
  lemma {:induction false} ToolMessagesOfAppend(log: seq<ChatMessage>, more: seq<ChatMessage>)
    ensures ToolMessages(log + more) == ToolMessages(log) + ToolMessages(more)
  {
    if more == [] {
      assert log + more == log;
    } else {
      var init := more[..|more| - 1];
      assert (log + more)[..|log + more| - 1] == log + init;
      assert (log + more)[|log + more| - 1] == more[|more| - 1];
      ToolMessagesOfAppend(log, init);
    }
  }

  /** Each marker's tool mapped to the marker's timestamp, later markers overwriting earlier
      ones; every other message is ignored. */
  function ActiveToolsOf(log: seq<ChatMessage>): map<string, int> {
    if log == [] then map[]
    else
      var before := ActiveToolsOf(log[..|log| - 1]);
      var m := log[|log| - 1];
      if IsToolMarker(m) then before[m.toolName.value := m.timestamp] else before
  }

  /** Filtering out the other messages first changes nothing. */
  lemma {:induction false} FilteringKeepsActiveTools(log: seq<ChatMessage>)
    ensures ActiveToolsOf(ToolMessages(log)) == ActiveToolsOf(log)
  {
    if log != [] {
      var init := log[..|log| - 1];
      FilteringKeepsActiveTools(init);
      var rest := ToolMessages(init);
      if IsToolMarker(log[|log| - 1]) {
        assert (rest + [log[|log| - 1]])[..|rest|] == rest;
      }
    }
  }

  /** The map has a key exactly for the tool of each marker in the log. */
  lemma {:induction false} ActiveToolsKeys(log: seq<ChatMessage>, name: string)
    ensures name in ActiveToolsOf(log) <==>
            exists i :: 0 <= i < |log| && IsToolMarker(log[i]) && log[i].toolName.value == name
  {
    if log != [] {
      var init := log[..|log| - 1];
      ActiveToolsKeys(init, name);
      if exists i :: 0 <= i < |init| && IsToolMarker(init[i]) && init[i].toolName.value == name {
        var i :| 0 <= i < |init| && IsToolMarker(init[i]) && init[i].toolName.value == name;
        assert log[i] == init[i];
      }
      if exists i :: 0 <= i < |log| && IsToolMarker(log[i]) && log[i].toolName.value == name {
        var i :| 0 <= i < |log| && IsToolMarker(log[i]) && log[i].toolName.value == name;
        if i < |init| {
          assert init[i] == log[i];
        }
      }
    }
  }

  /** A tool's entry is the timestamp of its last marker: later markers of the same tool
      overwrite earlier ones, and markers of other tools leave it alone. */
  lemma {:induction false} ActiveToolsHoldLastWrite(log: seq<ChatMessage>, i: nat)
    requires i < |log| && IsToolMarker(log[i])
    requires forall j :: i < j < |log| ==> !(IsToolMarker(log[j]) && log[j].toolName == log[i].toolName)
    ensures log[i].toolName.value in ActiveToolsOf(log)
    ensures ActiveToolsOf(log)[log[i].toolName.value] == log[i].timestamp
  {
    if i < |log| - 1 {
      var init := log[..|log| - 1];
      assert init[i] == log[i];
      ActiveToolsHoldLastWrite(init, i);
    }
  }

  /** After a tool marker and the message that follows it, the marker's tool is mapped to
      the marker's timestamp. */
  lemma MarkerThenReplyIsActive(log: seq<ChatMessage>, replies: seq<ChatMessage>)
    requires |replies| == 2 && IsToolMarker(replies[0]) && !IsToolMarker(replies[1])
    ensures replies[0].toolName.value in ActiveToolsOf(log + replies)
    ensures ActiveToolsOf(log + replies)[replies[0].toolName.value] == replies[0].timestamp
  {
    ActiveToolsHoldLastWrite(log + replies, |log|);
  }

  /** Messages that are not tool markers never change the map. */
  lemma {:induction false} UnmarkedMessagesKeepActiveTools(log: seq<ChatMessage>, more: seq<ChatMessage>)
    requires forall k :: 0 <= k < |more| ==> !IsToolMarker(more[k])
    ensures ActiveToolsOf(log + more) == ActiveToolsOf(log)
  {
    if more != [] {
      var init := more[..|more| - 1];
      assert (log + more)[..|log + more| - 1] == log + init;
      assert (log + more)[|log + more| - 1] == more[|more| - 1];
      UnmarkedMessagesKeepActiveTools(log, init);
    } else {
      assert log + more == log;
    }
  }

  // ----- the screen -----

  class ChatApp {
    var messages: seq<ChatMessage>
    var isLoading: bool
    var isSidebarOpen: bool
    var activeTools: map<string, int>
    var inputValue: string

    /** The map always reflects the log. */
    predicate Valid()
      reads this
    {
      activeTools == ActiveToolsOf(messages)
    }

    /** The opening state: the welcome message alone, nothing loading, the sidebar closed,
        an empty input and no tool in use. */
    constructor(now: int)
      ensures messages == [Welcome(now)]
      ensures !isLoading && !isSidebarOpen && inputValue == "" && activeTools == map[]
      ensures Valid()
    {
      messages := [Welcome(now)];
      isLoading := false;
      isSidebarOpen := false;
      activeTools := map[];
      inputValue := "";
    }

    /** Rebuilds the map from the log: the tool markers are picked out, then each one
        records its timestamp under its tool, in log order. */
    method RefreshActiveTools()
      modifies this
      ensures activeTools == ActiveToolsOf(messages)
      ensures messages == old(messages) && isLoading == old(isLoading)
      ensures isSidebarOpen == old(isSidebarOpen) && inputValue == old(inputValue)
    {
      var toolMessages := ToolMessages(messages);
      var newActiveTools: map<string, int> := map[];
      var i := 0;
      while i < |toolMessages|
        invariant 0 <= i <= |toolMessages|
        invariant newActiveTools == ActiveToolsOf(toolMessages[..i])
      {
        var msg := toolMessages[i];
        assert toolMessages[..i + 1][..i] == toolMessages[..i];
        if msg.toolName.Some? && msg.toolName.value != "" {
          newActiveTools := newActiveTools[msg.toolName.value := msg.timestamp];
        }
        i := i + 1;
      }
      assert toolMessages[..i] == toolMessages;
      FilteringKeepsActiveTools(messages);
      activeTools := newActiveTools;
    }

    /** Sending, first half: the user's message is appended and loading starts. */
    method Submit(userMessage: ChatMessage)
      requires Valid()
      modifies this
      ensures messages == old(messages) + [userMessage]
      ensures isLoading
      ensures isSidebarOpen == old(isSidebarOpen) && inputValue == old(inputValue)
      ensures Valid()
    {
      messages := messages + [userMessage];
      RefreshActiveTools();
      isLoading := true;
    }

    /** Sending, second half: the replies, when the call returned them (`None` when it
        threw), are appended in order, and loading stops either way. */
    method Finish(newMessages: Option<seq<ChatMessage>>)
      requires Valid()
      modifies this
      ensures newMessages.Some? ==> messages == old(messages) + newMessages.value
      ensures newMessages.None? ==> messages == old(messages)
      ensures !isLoading
      ensures isSidebarOpen == old(isSidebarOpen) && inputValue == old(inputValue)
      ensures Valid()
    {
      if newMessages.Some? {
        messages := messages + newMessages.value;
        RefreshActiveTools();
      }
      isLoading := false;
    }

    /** One exchange: the user's message (its id and timestamp read from the clock), then the
        assistant's replies, appended after everything already in the log. */
    method HandleSendMessage(content: string, host: Host, clock: seq<nat>) returns (replies: seq<ChatMessage>)
      requires Valid()
      requires |clock| >= 6 && NonDecreasing(clock)
      modifies this
      ensures messages == old(messages) + [ChatMessage(NatToString(clock[0]), User, content, clock[1], None, None)] + replies
      ensures 1 <= |replies| <= 2 && forall k :: 0 <= k < |replies| ==> replies[k].role == Assistant
      ensures |replies| == 2 ==> IsToolMarker(replies[0]) && replies[0].toolName.value in activeTools
                                 && activeTools[replies[0].toolName.value] == replies[0].timestamp
      ensures !isLoading && isSidebarOpen == old(isSidebarOpen) && inputValue == old(inputValue)
      ensures Valid()
    {
      var userMessage := ChatMessage(NatToString(clock[0]), User, content, clock[1], None, None);
      Submit(userMessage);
      assert isLoading;
      var ticks := clock[2..];
      assert |ticks| >= 4 && NonDecreasing(ticks);
      assert messages[|messages| - 1] == userMessage;
      replies := SendMessageToLLM(messages, host, ticks);
      ghost var log := messages;
      Finish(Some(replies));
      if |replies| == 2 {
        MarkerThenReplyIsActive(log, replies);
      }
    }

    /** Picking a tool in the sidebar puts its example prompt in the input and closes the
        sidebar. */
    method HandleToolClick(examplePrompt: string)
      modifies this
      ensures inputValue == examplePrompt && !isSidebarOpen
      ensures messages == old(messages) && isLoading == old(isLoading) && activeTools == old(activeTools)
    {
      inputValue := examplePrompt;
      isSidebarOpen := false;
    }
  }
}
