/**
  The router of the live agent server
  (backend/ec2/live-gemini/src/live_gemini/agents/router_agent.py): the agent
  catalogue rendered for the routing prompt, and `determine_agent`, which
  reads the language model's response stream and keeps the last agent
  selected, the last products retrieved and whether the model was interrupted.
  The model's stream and the product search are inputs.
 */
module RouterAgent {
  import opened Wrappers
  import opened Json
  import opened Text
  import opened AgentTypes
  import AgentSelector
  import GlobalStore

  /** One entry of the agent catalogue. */
  datatype AgentInfo = AgentInfo(name: string, description: string, capabilities: seq<string>, questions: seq<string>)

  const CapabilitiesLead := ":\nDescription: "
  const CapabilitiesHead := "\nCapabilities:\n- "
  const QuestionsHead := "\nSample user questions:\n- "
  const ItemSep := "\n- "
  const BlockSep := "\n\n"

  /** One agent's block: name, description, then the two bulleted lists. */
  function Block(info: AgentInfo): string {
    info.name + CapabilitiesLead + info.description + CapabilitiesHead + Join(ItemSep, info.capabilities)
      + QuestionsHead + Join(ItemSep, info.questions)
  }

  /** Each agent's block, in catalogue order. */
  function Blocks(infos: seq<AgentInfo>): (r: seq<string>)
    ensures |r| == |infos|
    ensures forall k :: 0 <= k < |infos| ==> r[k] == Block(infos[k])
  {
    seq(|infos|, k requires 0 <= k < |infos| => Block(infos[k]))
  }

  /** The blocks of the catalogue, in catalogue order, joined by blank lines. */
  function Formatted(infos: seq<AgentInfo>): (r: string)
    ensures |infos| == 1 ==> r == Block(infos[0])
    ensures |infos| == 0 ==> r == ""
  {
    Join(BlockSep, Blocks(infos))
  }

  /** Where capability j starts inside its agent's block. */
  function CapabilityAt(info: AgentInfo, j: nat): nat
    requires j < |info.capabilities|
  {
    |info.name| + |CapabilitiesLead| + |info.description| + |CapabilitiesHead| + Offset(ItemSep, info.capabilities, j)
  }

  /** Where question j starts inside its agent's block. */
  function QuestionAt(info: AgentInfo, j: nat): nat
    requires j < |info.questions|
  {
    |info.name| + |CapabilitiesLead| + |info.description| + |CapabilitiesHead| + |Join(ItemSep, info.capabilities)|
      + |QuestionsHead| + Offset(ItemSep, info.questions, j)
  }

  /** A block opens with the agent's name and its description. */
  lemma BlockStartsWithName(info: AgentInfo)
    ensures |info.name + CapabilitiesLead + info.description| <= |Block(info)|
    ensures Block(info)[..|info.name + CapabilitiesLead + info.description|]
              == info.name + CapabilitiesLead + info.description
  {
    var head := info.name + CapabilitiesLead + info.description;
    var tail := CapabilitiesHead + Join(ItemSep, info.capabilities) + QuestionsHead + Join(ItemSep, info.questions);
    assert Block(info) == head + tail;
  }

  /** Every capability is listed in its block, in order, at its own bullet. */
  lemma BlockCapability(info: AgentInfo, j: nat)
    requires j < |info.capabilities|
    ensures CapabilityAt(info, j) + |info.capabilities[j]| <= |Block(info)|
    ensures Block(info)[CapabilityAt(info, j) .. CapabilityAt(info, j) + |info.capabilities[j]|] == info.capabilities[j]
  {
    var head := info.name + CapabilitiesLead + info.description + CapabilitiesHead;
    var caps := Join(ItemSep, info.capabilities);
    var tail := QuestionsHead + Join(ItemSep, info.questions);
    assert Block(info) == head + caps + tail;
    JoinPart(ItemSep, info.capabilities, j);
    var a := Offset(ItemSep, info.capabilities, j);
    assert Block(info)[|head| + a .. |head| + a + |info.capabilities[j]|] == caps[a .. a + |info.capabilities[j]|];
  }

  /** Every sample question is listed in its block, in order, at its own bullet. */
  lemma BlockQuestion(info: AgentInfo, j: nat)
    requires j < |info.questions|
    ensures QuestionAt(info, j) + |info.questions[j]| <= |Block(info)|
    ensures Block(info)[QuestionAt(info, j) .. QuestionAt(info, j) + |info.questions[j]|] == info.questions[j]
  {
    var head := info.name + CapabilitiesLead + info.description + CapabilitiesHead
                + Join(ItemSep, info.capabilities) + QuestionsHead;
    var qs := Join(ItemSep, info.questions);
    assert Block(info) == head + qs;
    JoinPart(ItemSep, info.questions, j);
  }

  /** Every block appears in the catalogue text, in catalogue order, at its offset. */
  lemma FormattedBlock(infos: seq<AgentInfo>, i: nat)
    requires i < |infos|
    ensures Offset(BlockSep, Blocks(infos), i) + |Block(infos[i])| <= |Formatted(infos)|
    ensures Formatted(infos)[Offset(BlockSep, Blocks(infos), i) .. Offset(BlockSep, Blocks(infos), i) + |Block(infos[i])|]
              == Block(infos[i])
  {
    JoinPart(BlockSep, Blocks(infos), i);
  }

  /** Consecutive blocks are separated by exactly one blank line. */
  lemma FormattedSeparator(infos: seq<AgentInfo>, i: nat)
    requires i + 1 < |infos|
    ensures Offset(BlockSep, Blocks(infos), i + 1) == Offset(BlockSep, Blocks(infos), i) + |Block(infos[i])| + |BlockSep|
    ensures Offset(BlockSep, Blocks(infos), i + 1) <= |Formatted(infos)|
    ensures Formatted(infos)[Offset(BlockSep, Blocks(infos), i) + |Block(infos[i])| .. Offset(BlockSep, Blocks(infos), i + 1)]
              == BlockSep
  {
    JoinSeparator(BlockSep, Blocks(infos), i);
  }

  /** The catalogue, in its insertion order. */
  const AgentsInfo: seq<AgentInfo> := [
    AgentInfo(
      "Navigation",
      "Helps users navigate the store by providing directions to specific products, aisles, brands, or sections. "
      + "Can guide customers to the checkout and suggest the fastest route to a desired item based on the current store layout.",
      ["Locate specific products or brands", "Provide aisle numbers", "Guide to store sections", "Direct to checkout",
       "Suggest fastest in-store route"],
      ["Where can I find shampoo?", "What aisle is peanut butter in?", "Take me to the dairy section.",
       "Where\U{2019}s the Nike shelf?", "Show me the fastest route to the light bulbs."]),
    AgentInfo(
      "ProductInfo",
      "Provides detailed product insights, including features, materials, usage, safety, availability, and return or "
      + "warranty policies. Can answer questions about variants, stock levels, and alternative packaging or materials.",
      ["Explain product features and usage", "Provide material and safety info", "Check availability and stock",
       "Show size, color, and pack options", "Give return and warranty details"],
      ["Tell me more about this product.", "Is this microwave-safe?", "Do you have this in stock?",
       "Is this available in a different color?", "Does this come with a warranty?"]),
    AgentInfo(
      "Comparison",
      "Assists in comparing products by highlighting differences, suggesting lower-cost alternatives, and recommending "
      + "similar items based on the user\U{2019}s needs or intended use.",
      ["Compare products side by side", "Suggest cheaper alternatives", "Recommend similar items",
       "Match products to specific needs"],
      ["What\U{2019}s the difference between this and the other one?", "Is there a cheaper version of this?",
       "Show me similar items.", "Which one is better for sensitive skin?", "What\U{2019}s a good alternative to this?"]),
    AgentInfo(
      "Fallback",
      "Acts as a safety net for any questions or requests that don\U{2019}t clearly fall under navigation, product "
      + "information, or comparison. It manages ambiguous, complex, or off-topic queries by asking clarifying questions, "
      + "providing general assistance, or redirecting users to the appropriate resource or agent. This agent ensures a "
      + "smooth user experience by gracefully handling unexpected interactions and guiding users toward finding the help "
      + "they need.",
      ["Handle unclear or general questions", "Ask clarifying follow-up questions", "Redirect to appropriate help",
       "Maintain smooth user experience"],
      ["Uh... I\U{2019}m not sure what I\U{2019}m looking for.", "Can you help me?",
       "I saw something here last week\U{2014}do you know what it was?", "What do you recommend?",
       "Do you have any deals right now?"])
  ]

  /** `FORMATTED_AGENTS`. */
  const FormattedAgents := Formatted(AgentsInfo)

  /** The catalogue names each agent by its value, in the order Navigation, ProductInfo, Comparison, Fallback. */
  lemma CatalogueOrder()
    ensures |AgentsInfo| == 4
    ensures AgentsInfo[0].name == Value(Navigation) && AgentsInfo[1].name == Value(ProductInfo)
    ensures AgentsInfo[2].name == Value(Comparison) && AgentsInfo[3].name == Value(Fallback)
  {
  }

  // ---------------------------------------------------------------------------
  // determine_agent

  const StatusType := "status"
  const ToolResponseType := "tool_response"
  const SetAgentTool := "set_agent"
  const RetrieveTool := "retrieve_products"

  /** What the model's stream yields: its responses, and the exception it ends with, if any. */
  datatype Stream = Stream(responses: seq<Json>, raises: Option<string>)

  /** The returned dict; a key missing from it is `None` here. */
  datatype Decision = Decision(agentType: Json, retrievedProducts: Option<Json>, interrupted: bool, error: Option<string>)

  /** The dict returned from the exception handler. */
  function Failed(e: string): (r: Decision)
    ensures r.error == Some(e)
    ensures r.agentType == JStr("Fallback") && r.retrievedProducts.None? && !r.interrupted
  {
    Decision(JStr(Value(Fallback)), None, false, Some(e))
  }

  /** A dict response whose `type` is `t`. */
  predicate HasType(r: Json, t: string) {
    r.JObj? && Get(r.fields, "type", JNull) == JStr(t)
  }

  /** A status response with a truthy `interrupted`. */
  predicate Interrupts(r: Json) {
    HasType(r, StatusType) && PyTruthy(Get(r.fields, "interrupted", JNull))
  }

  /** A tool response from the tool called `name`. */
  predicate Calls(r: Json, name: string) {
    HasType(r, ToolResponseType) && Get(r.fields, "tool_name", JNull) == JStr(name)
  }

  /** The exception handling response `r` raises, if any: from `set_agent` or from the product search. */
  function Raised(r: Json, retrieve: Object -> Result<Json, string>): (e: Option<string>)
    ensures e.Some? ==> Calls(r, SetAgentTool) || Calls(r, RetrieveTool)
  {
    if Calls(r, SetAgentTool) && AgentSelector.Execute(r.fields).Failure? then Some(AgentSelector.Execute(r.fields).error)
    else if Calls(r, RetrieveTool) && retrieve(r.fields).Failure? then Some(retrieve(r.fields).error)
    else None
  }

  /** The three locals the loop updates. */
  datatype Locals = Locals(agentType: Json, retrieved: Json, interrupted: bool)

  const Start := Locals(JStr(Value(Fallback)), JNull, false)

  /** The loop body for one response. */
  function Step(l: Locals, r: Json, retrieve: Object -> Result<Json, string>): (n: Result<Locals, string>)
    ensures n.Failure? <==> Raised(r, retrieve).Some?
    ensures n.Failure? ==> n.error == Raised(r, retrieve).value
  {
    if !r.JObj? then Success(l)
    else
      var interrupted := l.interrupted || Interrupts(r);
      if Calls(r, SetAgentTool) then
        var agentType :- AgentSelector.Execute(r.fields);
        Success(Locals(agentType, l.retrieved, interrupted))
      else if Calls(r, RetrieveTool) then
        var products :- retrieve(r.fields);
        Success(Locals(l.agentType, products, interrupted))
      else Success(l.(interrupted := interrupted))
  }

  /** The last response of `rs` from the tool `name`. */
  function LastCall(rs: seq<Json>, name: string): (k: Option<nat>)
    ensures k.Some? ==> k.value < |rs| && Calls(rs[k.value], name)
                        && forall j :: k.value < j < |rs| ==> !Calls(rs[j], name)
    ensures k.None? ==> forall j :: 0 <= j < |rs| ==> !Calls(rs[j], name)
  {
    if rs == [] then None
    else if Calls(rs[|rs| - 1], name) then Some(|rs| - 1)
    else LastCall(rs[..|rs| - 1], name)
  }

  /** The `async for` over the responses, response by response. */
  function Run(l: Locals, rs: seq<Json>, retrieve: Object -> Result<Json, string>): (r: Result<Locals, string>)
    ensures r.Success? <==> forall j :: 0 <= j < |rs| ==> Raised(rs[j], retrieve).None?
    ensures r.Failure? ==> exists j :: 0 <= j < |rs| && Raised(rs[j], retrieve) == Some(r.error)
                                       && forall i :: 0 <= i < j ==> Raised(rs[i], retrieve).None?
    decreases |rs|
  {
    if rs == [] then Success(l)
    else
      var front := rs[..|rs| - 1];
      assert forall j :: 0 <= j < |front| ==> front[j] == rs[j];
      var before :- Run(l, front, retrieve);
      Step(before, rs[|rs| - 1], retrieve)
  }

  /** A completed loop is the last step applied to the loop over the earlier responses. */
  lemma RunLast(l: Locals, rs: seq<Json>, retrieve: Object -> Result<Json, string>)
    requires rs != [] && Run(l, rs, retrieve).Success?
    ensures Run(l, rs[..|rs| - 1], retrieve).Success?
    ensures Run(l, rs, retrieve) == Step(Run(l, rs[..|rs| - 1], retrieve).value, rs[|rs| - 1], retrieve)
  {
  }

  /** A completed loop has recorded an interruption iff some status response is truthily interrupted. */
  lemma {:induction false} RunInterrupted(l: Locals, rs: seq<Json>, retrieve: Object -> Result<Json, string>)
    requires Run(l, rs, retrieve).Success?
    ensures Run(l, rs, retrieve).value.interrupted <==> l.interrupted || exists j :: 0 <= j < |rs| && Interrupts(rs[j])
    decreases |rs|
  {
    if rs != [] {
      var front := rs[..|rs| - 1];
      RunLast(l, rs, retrieve);
      RunInterrupted(l, front, retrieve);
      assert forall j :: 0 <= j < |front| ==> front[j] == rs[j];
      if exists j :: 0 <= j < |rs| && Interrupts(rs[j]) {
        var j :| 0 <= j < |rs| && Interrupts(rs[j]);
        if j < |front| {
          assert Interrupts(front[j]);
        }
      }
    }
  }

  /** A completed loop holds the agent of the last `set_agent` response, or the initial one. */
  lemma {:induction false} RunAgentType(l: Locals, rs: seq<Json>, retrieve: Object -> Result<Json, string>)
    requires Run(l, rs, retrieve).Success?
    ensures Run(l, rs, retrieve).value.agentType == match LastCall(rs, SetAgentTool)
                                                      case None => l.agentType
                                                      case Some(k) => AgentSelector.Execute(rs[k].fields).value
    decreases |rs|
  {
    if rs != [] {
      var front := rs[..|rs| - 1];
      RunLast(l, rs, retrieve);
      RunAgentType(l, front, retrieve);
      assert forall j :: 0 <= j < |front| ==> front[j] == rs[j];
    }
  }

  /** A completed loop holds the products of the last `retrieve_products` response, or the initial value. */
  lemma {:induction false} RunRetrieved(l: Locals, rs: seq<Json>, retrieve: Object -> Result<Json, string>)
    requires Run(l, rs, retrieve).Success?
    ensures Run(l, rs, retrieve).value.retrieved == match LastCall(rs, RetrieveTool)
                                                      case None => l.retrieved
                                                      case Some(k) => retrieve(rs[k].fields).value
    decreases |rs|
  {
    if rs != [] {
      var front := rs[..|rs| - 1];
      RunLast(l, rs, retrieve);
      RunRetrieved(l, front, retrieve);
      assert forall j :: 0 <= j < |front| ==> front[j] == rs[j];
    }
  }

  /** `company_info.get("services") if company_info else None`: a truthy non-dict has no `get`. */
  function Services(store: GlobalStore.ClassState): (r: Result<Json, string>)
    ensures r.Failure? <==> var info := GlobalStore.Get(store, "company_info"); PyTruthy(info) && !info.JObj?
  {
    var info := GlobalStore.Get(store, "company_info");
    if !PyTruthy(info) then Success(JNull)
    else if info.JObj? then Success(Get(info.fields, "services", JNull))
    else Failure(NoGetError)
  }

  /**
    `determine_agent`: the services lookup, the prompt (whose formatting may
    raise `formatError`), then the stream. Every exception lands in the
    handler, which answers FALLBACK, not interrupted, with the error.
   */
  function DetermineAgent(store: GlobalStore.ClassState, formatError: Option<string>, stream: Stream,
                          retrieve: Object -> Result<Json, string>): (d: Decision)
    ensures d.error.None? <==> && Services(store).Success? && formatError.None? && stream.raises.None?
                               && forall j :: 0 <= j < |stream.responses| ==> Raised(stream.responses[j], retrieve).None?
    ensures d.error.Some? ==> d == Failed(d.error.value)
    ensures d.error.None? ==> d.retrievedProducts.Some?
    ensures d.error.None? ==> (d.interrupted <==> exists j :: 0 <= j < |stream.responses| && Interrupts(stream.responses[j]))
  {
    match Services(store)
    case Failure(e) => Failed(e)
    case Success(_) =>
      if formatError.Some? then Failed(formatError.value)
      else match Run(Start, stream.responses, retrieve)
        case Failure(e) => Failed(e)
        case Success(l) =>
          RunInterrupted(Start, stream.responses, retrieve);
          if stream.raises.Some? then Failed(stream.raises.value)
          else Decision(l.agentType, Some(l.retrieved), l.interrupted, None)
  }

  /** With no `set_agent` response, the agent is FALLBACK. */
  lemma NoSelectionFallback(store: GlobalStore.ClassState, formatError: Option<string>, stream: Stream,
                            retrieve: Object -> Result<Json, string>)
    requires forall j :: 0 <= j < |stream.responses| ==> !Calls(stream.responses[j], SetAgentTool)
    ensures DetermineAgent(store, formatError, stream, retrieve).agentType == JStr(Value(Fallback))
  {
    var d := DetermineAgent(store, formatError, stream, retrieve);
    if d.error.None? {
      RunAgentType(Start, stream.responses, retrieve);
      assert LastCall(stream.responses, SetAgentTool).None?;
    }
  }

  /**
    When nothing raises, the agent is what the last `set_agent` response
    selects.
   */
  lemma LastSelectionWins(store: GlobalStore.ClassState, stream: Stream, retrieve: Object -> Result<Json, string>, k: nat)
    requires Services(store).Success? && stream.raises.None?
    requires forall j :: 0 <= j < |stream.responses| ==> Raised(stream.responses[j], retrieve).None?
    requires k < |stream.responses| && Calls(stream.responses[k], SetAgentTool)
    requires forall j :: k < j < |stream.responses| ==> !Calls(stream.responses[j], SetAgentTool)
    ensures AgentSelector.Execute(stream.responses[k].fields).Success?
    ensures DetermineAgent(store, None, stream, retrieve).agentType == AgentSelector.Execute(stream.responses[k].fields).value
  {
    assert Raised(stream.responses[k], retrieve).None?;
    RunAgentType(Start, stream.responses, retrieve);
    var last := LastCall(stream.responses, SetAgentTool);
    assert last == Some(k);
  }

  /** When nothing raises, the products returned are those of the last product search. */
  lemma LastSearchWins(store: GlobalStore.ClassState, stream: Stream, retrieve: Object -> Result<Json, string>, k: nat)
    requires Services(store).Success? && stream.raises.None?
    requires forall j :: 0 <= j < |stream.responses| ==> Raised(stream.responses[j], retrieve).None?
    requires k < |stream.responses| && Calls(stream.responses[k], RetrieveTool)
    requires forall j :: k < j < |stream.responses| ==> !Calls(stream.responses[j], RetrieveTool)
    ensures retrieve(stream.responses[k].fields).Success?
    ensures DetermineAgent(store, None, stream, retrieve).retrievedProducts == Some(retrieve(stream.responses[k].fields).value)
  {
    assert Raised(stream.responses[k], retrieve).None?;
    RunRetrieved(Start, stream.responses, retrieve);
    var last := LastCall(stream.responses, RetrieveTool);
    assert last == Some(k);
  }

  /** A later `set_agent` response overrides every earlier one. */
  lemma LaterSelectionOverrides(store: GlobalStore.ClassState, responses: seq<Json>, call: Object,
                                retrieve: Object -> Result<Json, string>)
    requires Services(store).Success?
    requires forall j :: 0 <= j < |responses| ==> Raised(responses[j], retrieve).None?
    requires Calls(JObj(call), SetAgentTool) && AgentSelector.Execute(call).Success?
    ensures DetermineAgent(store, None, Stream(responses + [JObj(call)], None), retrieve).agentType
              == AgentSelector.Execute(call).value
  {
    var rs := responses + [JObj(call)];
    assert forall j :: 0 <= j < |responses| ==> rs[j] == responses[j];
    LastSelectionWins(store, Stream(rs, None), retrieve, |responses|);
  }

  /** Responses that are not dicts are skipped: removing them changes nothing. */
  lemma NonDictIgnored(l: Locals, rs: seq<Json>, other: Json, retrieve: Object -> Result<Json, string>)
    requires !other.JObj?
    ensures Run(l, rs + [other], retrieve) == Run(l, rs, retrieve)
  {
    assert (rs + [other])[..|rs|] == rs;
  }

  /** Any exception gives FALLBACK, not interrupted, no products key, and the error. */
  lemma ExceptionFallback(store: GlobalStore.ClassState, formatError: Option<string>, stream: Stream,
                          retrieve: Object -> Result<Json, string>)
    requires Services(store).Failure? || formatError.Some? || stream.raises.Some?
    ensures var d := DetermineAgent(store, formatError, stream, retrieve);
      && d.agentType == JStr(Value(Fallback)) && !d.interrupted && d.retrievedProducts.None? && d.error.Some?
  {
  }

  /** A truthy `company_info` that is not a dict fails routing before the model is consulted. */
  lemma CompanyInfoNotDict(store: GlobalStore.ClassState, formatError: Option<string>, stream: Stream,
                           retrieve: Object -> Result<Json, string>)
    requires GlobalStore.Get(store, "company_info") == JStr("acme")
    ensures DetermineAgent(store, formatError, stream, retrieve) == Failed(NoGetError)
  {
  }

  /** The selected agent is passed on unchecked, so it can be a value outside the enum. */
  lemma SelectionMayLeaveEnum(store: GlobalStore.ClassState, retrieve: Object -> Result<Json, string>)
    requires Services(store).Success?
    ensures var call := map["type" := JStr(ToolResponseType), "tool_name" := JStr(SetAgentTool),
                            "arguments" := JObj(map["agent_type" := JStr("Shopping")])];
      DetermineAgent(store, None, Stream([JObj(call)], None), retrieve).agentType == JStr("Shopping")
  {
    var call := map["type" := JStr(ToolResponseType), "tool_name" := JStr(SetAgentTool),
                    "arguments" := JObj(map["agent_type" := JStr("Shopping")])];
    assert Calls(JObj(call), SetAgentTool);
    assert AgentSelector.Execute(call) == Success(JStr("Shopping"));
    LaterSelectionOverrides(store, [], call, retrieve);
    assert [] + [JObj(call)] == [JObj(call)];
  }
}
