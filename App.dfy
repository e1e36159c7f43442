/** The chat page: what `display_message_in_ui` shows for one message, and how the
    messages of one AutoGen conversation are filtered and mapped onto the session's
    display list. Streamlit's widgets, the markdown decoration and the JSON pretty-printing
    of call arguments are outside the model; the conversation AutoGen produced is given. */
module App {
  import opened Basics
  import opened Text
  import opened AutogenManager

  /** A `function_call` (or `tool_calls`) field: missing, `None`, a dict, or a list. */
  datatype CallField = CallAbsent | CallNull | CallDict(entries: map<string, Value>) | CallList(length: nat)

  /** Python truthiness of the field. */
  predicate CallTruthy(c: CallField)
  {
    match c
    case CallAbsent => false
    case CallNull => false
    case CallDict(entries) => entries != map[]
    case CallList(length) => length > 0
  }

  /** `d.get(key)` on the call dict. */
  function Entry(entries: map<string, Value>, key: string): Value
  {
    if key in entries then entries[key] else Absent
  }

  /** A message of the session's display list. */
  datatype DisplayMsg = DisplayMsg(role: Value, name: Value, content: Value, functionCall: CallField)

  /** What one message puts inside its chat bubble. */
  datatype Block =
    | CallBlock(agentName: string, shownContent: Option<string>, funcName: string, arguments: Value)
    | ResultBlock(agentName: string, result: string)
    | TextBlock(agentName: string, text: string)
    | NoBlock

  /** The bubble's role ("user" or "assistant") and its contents. */
  datatype Rendered = Rendered(chatRole: string, block: Block)

  const RoleHasNoLower: string := "'NoneType' object has no attribute 'lower'"
  const ListHasNoGet: string := "'list' object has no attribute 'get'"

  /** The keys read from a function call, and what a missing one is shown as. */
  const NameKey: string := "name"
  const ArgumentsKey: string := "arguments"
  const MissingName: string := "None"
  const MissingArguments: string := "{}"

  /** Text shown above a call is hidden when it reads "none" once stripped and lowered. */
  const NoneText: string := "none"

  /** The lower-cased role of a message whose role is not `None` (`"system"` when missing). */
  function RoleName(role: Value): string
    requires !role.Null?
  {
    if role.Absent? then "system" else Lower(role.s)
  }

  /** The text shown for an assistant turn: when its right-stripped form ends with
      TERMINATE, the token is cut off and the rest right-stripped again. */
  function StripTerminate(s: string): (r: string)
    ensures r <= s
  {
    var t := RStrip(s);
    if EndsWith(t, TerminateToken) then RStrip(t[..|t| - |TerminateToken|]) else s
  }

  /** The text branch of `display_message_in_ui`: non-blank text is shown with a final
      TERMINATE cut off, unless nothing but whitespace is left. */
  function TextBranch(agentName: string, content: Value): (b: Block)
    ensures b.TextBlock? || b.NoBlock?
    ensures b.TextBlock? ==> content.Str? && b.agentName == agentName && b.text <= content.s && !AllSpace(b.text)
  {
    if Truthy(content) && Strip(content.s) != "" then
      var processed := StripTerminate(content.s);
      StripEmpty(processed);
      if Strip(processed) != "" then TextBlock(agentName, processed) else NoBlock
    else NoBlock
  }

  /** `display_message_in_ui`. A `None` role fails on `.lower()`, and a non-empty list of
      tool calls fails on `.get`; otherwise the role decides the bubble and the first of
      function call, function result and text that applies decides its contents. */
  function DisplayMessage(m: DisplayMsg): (r: Result<Rendered>)
    ensures r.Failure? <==> m.role.Null? || (CallTruthy(m.functionCall) && m.functionCall.CallList?)
    ensures r.Success? ==> (r.value.chatRole == "user" <==> m.role.Str? && Lower(m.role.s) == "user")
    ensures r.Success? ==> r.value.chatRole in {"user", "assistant"}
    ensures r.Success? ==> (r.value.block.CallBlock? <==> CallTruthy(m.functionCall))
    ensures r.Success? && !CallTruthy(m.functionCall) ==>
              (r.value.block.ResultBlock? <==> m.role.Str? && Lower(m.role.s) == "function")
    ensures r.Success? && r.value.block.TextBlock? ==>
              m.content.Str? && r.value.block.text <= m.content.s && !AllSpace(r.value.block.text)
    ensures m.role.Str? && !CallTruthy(m.functionCall) && Lower(m.role.s) != "function" ==>
              r.value.block == TextBranch(Shown(m.name, Lower(m.role.s)), m.content)
    ensures r.Success? && !r.value.block.NoBlock? ==> r.value.block.agentName == Shown(m.name, RoleName(m.role))
    ensures r.Success? && r.value.block.CallBlock? ==>
              && m.functionCall.CallDict?
              && r.value.block.funcName == Shown(Entry(m.functionCall.entries, NameKey), MissingName)
              && r.value.block.arguments ==
                   (if Entry(m.functionCall.entries, ArgumentsKey).Absent? then Str(MissingArguments)
                    else Entry(m.functionCall.entries, ArgumentsKey))
    ensures r.Success? && r.value.block.CallBlock? ==>
              r.value.block.shownContent ==
                (var c := if m.content.Absent? then Str("") else m.content;
                 if Truthy(c) && Lower(Strip(c.s)) != NoneText then Some(c.s) else None)
    ensures r.Success? && r.value.block.ResultBlock? ==>
              r.value.block.result == Shown(m.content, "")
  {
    if m.role.Null? then Failure(RoleHasNoLower)
    else
      var role := RoleName(m.role);
      var agentName := Shown(m.name, role);
      var content := if m.content.Absent? then Str("") else m.content;
      var chatRole := if role == "user" then "user" else "assistant";
      if CallTruthy(m.functionCall) then
        match m.functionCall
        case CallList(_) => Failure(ListHasNoGet)
        case CallDict(entries) =>
          var funcName := Shown(Entry(entries, NameKey), MissingName);
          var arguments := Entry(entries, ArgumentsKey);
          var shown := if Truthy(content) && Lower(Strip(content.s)) != NoneText then Some(content.s) else None;
          Success(Rendered(chatRole, CallBlock(agentName, shown, funcName, if arguments.Absent? then Str(MissingArguments) else arguments)))
      else if role == "function" then
        Success(Rendered(chatRole, ResultBlock(agentName, Shown(content, ""))))
      else Success(Rendered(chatRole, TextBranch(agentName, content)))
  }

  // ---------------------------------------------------------------------------
  // Stripping TERMINATE

  /** Text is changed for display exactly when the termination rule accepts it, and then
      the token is gone from the end. */
  lemma StripTerminateIff(s: string)
    ensures StripTerminate(s) == s <==> !IsTerminationMsg(Str(s))
    ensures IsTerminationMsg(Str(s)) ==> |StripTerminate(s)| + |TerminateToken| <= |s|
  {
    var t := RStrip(s);
    if EndsWith(t, TerminateToken) {
      assert |StripTerminate(s)| <= |t| - |TerminateToken|;
    }
  }

  /** Text, the token and trailing whitespace display as the text, right-stripped. */
  lemma StripTerminateTokenLast(text: string, ws: string)
    requires AllSpace(ws)
    ensures StripTerminate(text + TerminateToken + ws) == RStrip(text)
  {
    var s := text + TerminateToken + ws;
    var u := text + TerminateToken;
    RStripTrailingSpace(u, ws);
    assert !IsSpace(u[|u| - 1]);
    assert RStrip(s) == u;
    assert u[|u| - |TerminateToken|..] == TerminateToken;
    assert u[..|u| - |TerminateToken|] == text;
  }

  /** A turn ending in the token is shown without it, right-stripped. */
  lemma TokenLastDisplayedStripped(agentName: string, text: string, ws: string)
    requires AllSpace(ws) && !AllSpace(text)
    ensures TextBranch(agentName, Str(text + TerminateToken + ws)) == TextBlock(agentName, RStrip(text))
  {
    StripTerminateTokenLast(text, ws);
    RStripNotBlank(text);
    TokenNotBlank(text, ws);
  }

  lemma RStripNotBlank(text: string)
    requires !AllSpace(text)
    ensures Strip(RStrip(text)) != []
  {
    var r := RStrip(text);
    RStripEmpty(text);
    assert r != [] && !IsSpace(r[|r| - 1]);
    StripEmpty(r);
  }

  lemma TokenNotBlank(text: string, ws: string)
    ensures Strip(text + TerminateToken + ws) != []
  {
    var s := text + TerminateToken + ws;
    assert s[|text|] == 'T';
    assert !IsSpace(s[|text|]);
    StripEmpty(s);
  }

  /** The assistant's usual last turn is shown without its token. */
  lemma AnswerLosesToken()
    ensures StripTerminate("The answer is 42. " + TerminateToken) == "The answer is 42."
  {
    var text := "The answer is 42. ";
    StripTerminateTokenLast(text, "");
    assert text + TerminateToken + "" == text + TerminateToken;
    var shown := "The answer is 42.";
    RStripTrailingSpace(shown, " ");
    assert text == shown + " ";
  }

  /** Plain text that the termination rule does not accept is shown exactly as sent. */
  lemma PlainTextShownVerbatim(agentName: string, s: string)
    requires !AllSpace(s) && !IsTerminationMsg(Str(s))
    ensures TextBranch(agentName, Str(s)) == TextBlock(agentName, s)
  {
    StripTerminateIff(s);
    StripEmpty(s);
  }

  /** Whitespace-only text renders nothing at all. */
  lemma BlankRendersNothing(agentName: string, text: string)
    requires AllSpace(text)
    ensures TextBranch(agentName, Str(text)) == NoBlock
  {
    StripEmpty(text);
  }

  /** Nor does the bare token, whatever whitespace follows it. */
  lemma BareTokenRendersNothing(agentName: string, lead: string, ws: string)
    requires AllSpace(lead) && AllSpace(ws)
    ensures TextBranch(agentName, Str(lead + TerminateToken + ws)) == NoBlock
  {
    StripTerminateTokenLast(lead, ws);
    RStripEmpty(lead);
    StripEmpty([]);
  }

  // ---------------------------------------------------------------------------
  // One turn of the conversation

  /** A message of AutoGen's conversation with the assistant. */
  datatype AutogenMsg = AutogenMsg(role: Value, name: Value, content: Value, toolCalls: CallField, functionCall: CallField)

  /** The user's own prompt, echoed by AutoGen. */
  predicate IsPromptEcho(m: AutogenMsg, prompt: string)
  {
    m.role == Str("user") && m.content == Str(prompt)
  }

  /** `a or b` for call fields, where a missing `b` reads as `None`: Python's `or` gives
      its first operand when that is truthy and its second one otherwise. */
  function CallOr(a: CallField, b: CallField): (r: CallField)
    ensures CallTruthy(r) <==> CallTruthy(a) || CallTruthy(b)
    ensures !r.CallAbsent?
    ensures CallTruthy(a) ==> r == a
    ensures !CallTruthy(a) && !b.CallAbsent? ==> r == b
    ensures !CallTruthy(a) && b.CallAbsent? ==> r == CallNull
  {
    if CallTruthy(a) then a else if b.CallAbsent? then CallNull else b
  }

  /** The role a message without one is displayed with. */
  const DefaultRole: string := "assistant"

  /** The dict built for display: the role defaults to "assistant", the name to the role
      (or `None`), the content to `None`, and the call is `tool_calls or function_call`. */
  function ToDisplay(m: AutogenMsg): (d: DisplayMsg)
    ensures !d.role.Absent? && !d.name.Absent? && !d.content.Absent? && !d.functionCall.CallAbsent?
    ensures !m.role.Absent? ==> d.role == m.role && (m.name.Absent? ==> d.name == m.role)
    ensures m.role.Absent? ==> d.role == Str(DefaultRole)
    ensures m.name.Absent? && m.role.Absent? ==> d.name == Null
    ensures !m.name.Absent? ==> d.name == m.name
    ensures m.content.Absent? ==> d.content == Null
    ensures !m.content.Absent? ==> d.content == m.content
    ensures CallTruthy(d.functionCall) <==> CallTruthy(m.toolCalls) || CallTruthy(m.functionCall)
    ensures CallTruthy(m.toolCalls) ==> d.functionCall == m.toolCalls
    ensures !CallTruthy(m.toolCalls) && !m.functionCall.CallAbsent? ==> d.functionCall == m.functionCall
    ensures !CallTruthy(m.toolCalls) && m.functionCall.CallAbsent? ==> d.functionCall == CallNull
  {
    DisplayMsg(
      if m.role.Absent? then Str(DefaultRole) else m.role,
      if m.name.Absent? then (if m.role.Absent? then Null else m.role) else m.name,
      if m.content.Absent? then Null else m.content,
      CallOr(m.toolCalls, m.functionCall))
  }

  /** A stored `None` role survives the mapping and then fails at `.lower()`. */
  lemma NullRoleFailsDisplay(m: AutogenMsg)
    requires m.role.Null?
    ensures DisplayMessage(ToDisplay(m)).Failure?
  {
  }

  /** A non-empty list of tool calls becomes the displayed call and fails at `.get`. */
  lemma ToolCallListFailsDisplay(m: AutogenMsg)
    requires m.toolCalls.CallList? && CallTruthy(m.toolCalls)
    ensures DisplayMessage(ToDisplay(m)).Failure?
  {
  }

  function MapDisplay(ms: seq<AutogenMsg>): (ds: seq<DisplayMsg>)
    ensures |ds| == |ms|
    ensures forall i :: 0 <= i < |ms| ==> ds[i] == ToDisplay(ms[i])
  {
    seq(|ms|, i requires 0 <= i < |ms| => ToDisplay(ms[i]))
  }

  /** The length of the run of prompt echoes at the front of the conversation. */
  function LeadingEchoes(conversation: seq<AutogenMsg>, prompt: string): (k: nat)
    ensures k <= |conversation|
    ensures forall i :: 0 <= i < k ==> IsPromptEcho(conversation[i], prompt)
    ensures k < |conversation| ==> !IsPromptEcho(conversation[k], prompt)
  {
    if conversation == [] || !IsPromptEcho(conversation[0], prompt) then 0
    else 1 + LeadingEchoes(conversation[1..], prompt)
  }

  /** The messages one turn adds to the display: the conversation without its leading
      prompt echoes, mapped for display, in order. */
  function NewDisplayMessages(conversation: seq<AutogenMsg>, prompt: string): seq<DisplayMsg>
  {
    MapDisplay(conversation[LeadingEchoes(conversation, prompt)..])
  }

  /** The loop of the chat handler: an echo of the prompt is skipped only while nothing
      has been collected yet. */
  method CollectTurnMessages(conversation: seq<AutogenMsg>, prompt: string) returns (collected: seq<DisplayMsg>)
    ensures collected == NewDisplayMessages(conversation, prompt)
  {
    ghost var k := LeadingEchoes(conversation, prompt);
    collected := [];
    for i := 0 to |conversation|
      invariant i <= k ==> collected == []
      invariant i > k ==> collected == MapDisplay(conversation[k..i])
    {
      var m := conversation[i];
      if IsPromptEcho(m, prompt) && collected == [] {
        assert i < k;
      } else {
        assert MapDisplay(conversation[k..i + 1]) == MapDisplay(conversation[k..i]) + [ToDisplay(m)];
        collected := collected + [ToDisplay(m)];
      }
    }
    assert conversation[k..|conversation|] == conversation[k..];
  }

  /** A conversation made only of prompt echoes adds nothing to the display. */
  lemma {:induction false} AllEchoesAddNothing(conversation: seq<AutogenMsg>, prompt: string)
    requires forall i :: 0 <= i < |conversation| ==> IsPromptEcho(conversation[i], prompt)
    ensures NewDisplayMessages(conversation, prompt) == []
  {
    var k := LeadingEchoes(conversation, prompt);
    assert k == |conversation|;
  }

  /** Once something has been collected, later echoes of the prompt are kept: every
      message after the leading echoes appears, at its own place in conversation order. */
  lemma LaterMessagesKept(conversation: seq<AutogenMsg>, prompt: string, i: nat)
    requires LeadingEchoes(conversation, prompt) <= i < |conversation|
    ensures NewDisplayMessages(conversation, prompt)[i - LeadingEchoes(conversation, prompt)]
            == ToDisplay(conversation[i])
  {
    MapDisplayAfter(conversation, LeadingEchoes(conversation, prompt), i);
  }

  /** After dropping the first k messages, message i is displayed at position i - k. */
  lemma MapDisplayAfter(ms: seq<AutogenMsg>, k: nat, i: nat)
    requires k <= i < |ms|
    ensures MapDisplay(ms[k..])[i - k] == ToDisplay(ms[i])
  {
    assert ms[k..][i - k] == ms[i];
  }

  /** A conversation that does not open with the prompt keeps every message. */
  lemma NoLeadingEchoKeepsAll(conversation: seq<AutogenMsg>, prompt: string)
    requires conversation != [] && !IsPromptEcho(conversation[0], prompt)
    ensures NewDisplayMessages(conversation, prompt) == MapDisplay(conversation)
  {
    assert conversation[0..] == conversation;
  }

  // ---------------------------------------------------------------------------
  // The session's display list

  const Greeting: string := "Hello! I am the Autogen Multi-Tool Assistant. I can search documents or perform calculations. How can I help?"
  const NoResponse: string := "(No response from assistant for this turn.)"
  const InteractionErrorPrefix: string := "An error occurred during AutoGen interaction: "

  function UserPromptMsg(prompt: string): DisplayMsg
  {
    DisplayMsg(Str("user"), Str("User"), Str(prompt), CallAbsent)
  }

  function AssistantMsg(name: string, content: string): DisplayMsg
  {
    DisplayMsg(Str("assistant"), Str(name), Str(content), CallAbsent)
  }

  /** `st.session_state.display_chat_messages`. */
  class ChatSession {
    var displayChatMessages: seq<DisplayMsg>

    constructor ()
      ensures displayChatMessages == []
    {
      displayChatMessages := [];
    }

    /** The greeting added when the agents are set up and nothing is displayed yet. */
    method Greet(assistantName: string)
      modifies this
      ensures old(displayChatMessages) == [] ==> displayChatMessages == [AssistantMsg(assistantName, Greeting)]
      ensures old(displayChatMessages) != [] ==> displayChatMessages == old(displayChatMessages)
    {
      if displayChatMessages == [] {
        displayChatMessages := displayChatMessages + [AssistantMsg(assistantName, Greeting)];
      }
    }

    method AppendUserPrompt(prompt: string)
      modifies this
      ensures displayChatMessages == old(displayChatMessages) + [UserPromptMsg(prompt)]
    {
      displayChatMessages := displayChatMessages + [UserPromptMsg(prompt)];
    }

    /** A finished chat: its messages are appended, or the fallback when it is empty. */
    method RecordTurn(prompt: string, conversation: seq<AutogenMsg>, assistantName: string)
      modifies this
      ensures conversation != [] ==>
                displayChatMessages == old(displayChatMessages) + NewDisplayMessages(conversation, prompt)
      ensures conversation == [] ==>
                displayChatMessages == old(displayChatMessages) + [AssistantMsg(assistantName, NoResponse)]
    {
      if conversation != [] {
        var newMessages := CollectTurnMessages(conversation, prompt);
        displayChatMessages := displayChatMessages + newMessages;
      } else {
        displayChatMessages := displayChatMessages + [AssistantMsg(assistantName, NoResponse)];
      }
    }

    /** A chat that raised: its error is appended as a message from "SystemError". */
    method RecordError(error: string)
      modifies this
      ensures displayChatMessages == old(displayChatMessages) + [AssistantMsg("SystemError", InteractionErrorPrefix + error)]
    {
      displayChatMessages := displayChatMessages + [AssistantMsg("SystemError", InteractionErrorPrefix + error)];
    }

    /** One prompt: it is shown, then the chat's messages, or the fallback, or the error. */
    method ChatTurn(prompt: string, chat: Result<seq<AutogenMsg>>, assistantName: string)
      modifies this
      ensures chat.Failure? ==>
                displayChatMessages == old(displayChatMessages) + [UserPromptMsg(prompt)]
                                         + [AssistantMsg("SystemError", InteractionErrorPrefix + chat.error)]
      ensures chat.Success? && chat.value != [] ==>
                displayChatMessages == old(displayChatMessages) + [UserPromptMsg(prompt)]
                                         + NewDisplayMessages(chat.value, prompt)
      ensures chat.Success? && chat.value == [] ==>
                displayChatMessages == old(displayChatMessages) + [UserPromptMsg(prompt)]
                                         + [AssistantMsg(assistantName, NoResponse)]
    {
      AppendUserPrompt(prompt);
      match chat
      case Failure(error) => RecordError(error);
      case Success(conversation) => RecordTurn(prompt, conversation, assistantName);
    }
  }
}
