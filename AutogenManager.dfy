/** The two AutoGen agents of the assistant: the function schema the assistant declares,
    the user proxy's `function_map` and termination rule, and the module-level pair that
    is built on first use and reused afterwards. AutoGen's conversation loop itself is
    library code and is not modelled. */
module AutogenManager {
  import opened Basics
  import opened Text

  const TerminateToken: string := "TERMINATE"

  /** `is_termination_msg`: the message's `content` is a string whose `rstrip()` ends
      with TERMINATE. `content` is what `x.get("content")` gives. */
  predicate IsTerminationMsg(content: Value)
  {
    content.Str? && EndsWith(RStrip(content.s), TerminateToken)
  }

  // ---------------------------------------------------------------------------
  // The termination rule

  /** Text, then the token, then any whitespace at all, is terminal. */
  lemma TerminalWhenTokenLast(text: string, ws: string)
    requires AllSpace(ws)
    ensures IsTerminationMsg(Str(text + TerminateToken + ws))
  {
    RStripTrailingSpace(text + TerminateToken, ws);
    var t := text + TerminateToken;
    assert !IsSpace(t[|t| - 1]);
    assert t[|t| - |TerminateToken|..] == TerminateToken;
  }

  /** Conversely, a terminal message is some text, the token, and whitespace only. */
  lemma TerminalDecomposes(s: string)
    requires IsTerminationMsg(Str(s))
    ensures var r := RStrip(s);
            && |r| >= |TerminateToken|
            && s == r[..|r| - |TerminateToken|] + TerminateToken + s[|r|..]
            && AllSpace(s[|r|..])
  {
    var r := RStrip(s);
    SuffixSplit(r, TerminateToken);
    PrefixSplit(r, s);
  }

  /** Whitespace after the message does not change whether it is terminal. */
  lemma TerminationIgnoresTrailingSpace(s: string, ws: string)
    requires AllSpace(ws)
    ensures IsTerminationMsg(Str(s + ws)) == IsTerminationMsg(Str(s))
  {
    RStripTrailingSpace(s, ws);
  }

  /** The last character that is not whitespace must be the token's final 'E': a token
      followed by any other text is not terminal. */
  lemma TerminalEndsInE(s: string)
    requires IsTerminationMsg(Str(s))
    ensures var r := RStrip(s); r != [] && r[|r| - 1] == 'E'
  {
    var r := RStrip(s);
    assert r[|r| - 1] == r[|r| - |TerminateToken|..][|TerminateToken| - 1];
  }

  /** Only string content can be terminal: `None` (a pure function-call turn) and a
      missing content never are, whatever else the message holds. */
  lemma TerminalOnlyForText(content: Value)
    ensures IsTerminationMsg(content) ==> content.Str? && |content.s| >= |TerminateToken|
  {
    if IsTerminationMsg(content) {
      assert |RStrip(content.s)| <= |content.s|;
    }
  }

  lemma AnswerThenTokenIsTerminal()
    ensures IsTerminationMsg(Str("The answer is 42. TERMINATE"))
  {
    TerminalWhenTokenLast("The answer is 42. ", "");
    assert "The answer is 42. " + TerminateToken + "" == "The answer is 42. TERMINATE";
  }

  lemma TokenThenSpaceIsTerminal()
    ensures IsTerminationMsg(Str("Done.\n" + TerminateToken + "  \n"))
  {
    TerminalWhenTokenLast("Done.\n", "  \n");
  }

  /** The rule is a plain suffix test, not a word match. */
  lemma GluedTokenIsTerminal()
    ensures IsTerminationMsg(Str("Done: XTERMINATE"))
  {
    TerminalWhenTokenLast("Done: X", "");
    assert "Done: X" + TerminateToken + "" == "Done: XTERMINATE";
  }

  lemma TokenFollowedByTextIsNotTerminal()
    ensures !IsTerminationMsg(Str("TERMINATE now"))
  {
    var s := "TERMINATE now";
    assert !IsSpace(s[|s| - 1]) && RStrip(s) == s;
    assert s[|s| - |TerminateToken|..][|TerminateToken| - 1] == 'w';
  }

  // ---------------------------------------------------------------------------
  // The declared function and the function map

  const KnowledgeBaseToolName: string := "query_internal_knowledge_base"

  datatype Property = Property(typ: string, description: string)

  /** One entry of the assistant's `functions` list (OpenAI function calling). */
  datatype FunctionSchema = FunctionSchema(
    name: string,
    description: string,
    parametersType: string,
    properties: map<string, Property>,
    required: seq<string>)

  /** The Python functions the user proxy can execute. */
  datatype ToolFunction = QueryInternalKnowledgeBase

  const KnowledgeBaseSchema: FunctionSchema := FunctionSchema(
    KnowledgeBaseToolName,
    "Queries internal company PDF documents to answer questions about policies, products, reports etc. Returns the answer and sources.",
    "object",
    map["query" := Property("string", "The user's question to be answered from the documents.")],
    ["query"])

  const AssistantFunctions: seq<FunctionSchema> := [KnowledgeBaseSchema]

  const ProxyFunctionMap: map<string, ToolFunction> := map[KnowledgeBaseToolName := QueryInternalKnowledgeBase]

  const AssistantName: string := "DocAssistantOpenAI"
  const UserProxyName: string := "UserProxy"
  const HumanInputMode: string := "NEVER"
  const MaxConsecutiveAutoReply: nat := 5

  /** The last instruction of the assistant's system message. */
  const TerminateInstruction: string :=
    "After you have provided the complete answer to the user's current question, end your response with the exact word TERMINATE."

  /** The names the schema list declares. */
  function DeclaredNames(functions: seq<FunctionSchema>): (names: set<string>)
    ensures forall i :: 0 <= i < |functions| ==> functions[i].name in names
    ensures forall n :: n in names ==> exists i :: 0 <= i < |functions| && functions[i].name == n
  {
    if functions == [] then {}
    else {functions[0].name} + DeclaredNames(functions[1..])
  }

  /** Every declared function can be executed by the proxy, every executable function is
      declared, and every required parameter is a declared property. */
  predicate SchemaMatchesMap(functions: seq<FunctionSchema>, functionMap: map<string, ToolFunction>)
  {
    && DeclaredNames(functions) == functionMap.Keys
    && forall i :: 0 <= i < |functions| ==>
         forall j :: 0 <= j < |functions[i].required| ==> functions[i].required[j] in functions[i].properties
  }

  /** The single declared function is the single executable one, the knowledge-base
      tool, and its schema requires the `query` argument. */
  lemma SchemaConsistency()
    ensures SchemaMatchesMap(AssistantFunctions, ProxyFunctionMap)
    ensures |AssistantFunctions| == 1 && ProxyFunctionMap.Keys == {KnowledgeBaseToolName}
    ensures ProxyFunctionMap[AssistantFunctions[0].name] == QueryInternalKnowledgeBase
    ensures "query" in AssistantFunctions[0].required
  {
    assert DeclaredNames(AssistantFunctions) == {KnowledgeBaseToolName} + DeclaredNames([]);
    assert AssistantFunctions[0].required[0] == "query";
  }

  /** The assistant is told to end with the very token the proxy's rule looks for: the
      word before the closing period of its instruction is that token. */
  lemma InstructionNamesToken()
    ensures Contains(TerminateInstruction, TerminateToken)
    ensures TerminateInstruction[|TerminateInstruction| - |TerminateToken| - 1..|TerminateInstruction| - 1] == TerminateToken
  {
    var lead := "After you have provided the complete answer to the user's current question, end your response with the exact word ";
    assert TerminateInstruction == lead + TerminateToken + ".";
    ContainsInfix(lead, TerminateToken, ".");
  }

  // ---------------------------------------------------------------------------
  // The agents

  class AssistantAgent {
    const name: string
    const functions: seq<FunctionSchema>
    const terminateInstruction: string

    constructor ()
      ensures name == AssistantName && functions == AssistantFunctions
      ensures terminateInstruction == TerminateInstruction
    {
      name := AssistantName;
      functions := AssistantFunctions;
      terminateInstruction := TerminateInstruction;
    }
  }

  class UserProxyAgent {
    const name: string
    const humanInputMode: string
    const maxConsecutiveAutoReply: nat
    const codeExecution: bool
    const functionMap: map<string, ToolFunction>

    constructor ()
      ensures name == UserProxyName && humanInputMode == HumanInputMode
      ensures maxConsecutiveAutoReply == MaxConsecutiveAutoReply && !codeExecution
      ensures functionMap == ProxyFunctionMap
    {
      name := UserProxyName;
      humanInputMode := HumanInputMode;
      maxConsecutiveAutoReply := MaxConsecutiveAutoReply;
      codeExecution := false;
      functionMap := ProxyFunctionMap;
    }
  }

  /** The pair is configured as `get_autogen_agents` builds it, so each side knows the other's tool. */
  predicate AgentsMatch(assistant: AssistantAgent, proxy: UserProxyAgent)
  {
    && assistant.name == AssistantName && proxy.name == UserProxyName
    && SchemaMatchesMap(assistant.functions, proxy.functionMap)
    && proxy.humanInputMode == HumanInputMode
    && proxy.maxConsecutiveAutoReply == MaxConsecutiveAutoReply
    && !proxy.codeExecution
  }

  /** The body of `get_autogen_agents` that builds the pair. */
  method BuildAgents() returns (assistant: AssistantAgent, proxy: UserProxyAgent)
    ensures fresh(assistant) && fresh(proxy)
    ensures AgentsMatch(assistant, proxy)
    ensures assistant.functions == AssistantFunctions && proxy.functionMap == ProxyFunctionMap
  {
    assistant := new AssistantAgent();
    proxy := new UserProxyAgent();
    SchemaConsistency();
  }

  /** The module globals `assistant_agent` and `user_proxy_agent`. */
  class AgentRegistry {
    var assistant: AssistantAgent?
    var userProxy: UserProxyAgent?

    ghost predicate Valid()
      reads this
    {
      assistant != null && userProxy != null ==> AgentsMatch(assistant, userProxy)
    }

    constructor ()
      ensures assistant == null && userProxy == null && Valid()
    {
      assistant := null;
      userProxy := null;
    }

    /** `get_autogen_agents`: both agents are rebuilt when either is missing; otherwise
        the existing pair is returned and nothing changes. */
    method GetAutogenAgents() returns (a: AssistantAgent, u: UserProxyAgent)
      requires Valid()
      modifies this
      ensures Valid() && assistant == a && userProxy == u
      ensures AgentsMatch(a, u)
      ensures old(assistant) != null && old(userProxy) != null ==> a == old(assistant) && u == old(userProxy)
      ensures old(assistant) == null || old(userProxy) == null ==> fresh(a) && fresh(u)
    {
      if assistant == null || userProxy == null {
        a, u := BuildAgents();
        assistant, userProxy := a, u;
      } else {
        a, u := assistant, userProxy;
      }
    }
  }

  /** Two calls in a row hand out the same pair of agents. */
  method AgentsBuiltOnce(registry: AgentRegistry) returns (sameAssistant: bool, sameProxy: bool)
    requires registry.Valid()
    modifies registry
    ensures sameAssistant && sameProxy
  {
    var a1, u1 := registry.GetAutogenAgents();
    var a2, u2 := registry.GetAutogenAgents();
    sameAssistant, sameProxy := a1 == a2, u1 == u2;
  }
}
