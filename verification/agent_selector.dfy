/**
  The `set_agent` tool (`AgentSelectorTool` in
  backend/ec2/live-gemini/src/live_gemini/tools/agent_selector_tool.py): the
  declared enum of agent values, and the argument lookup with its default.
 */
module AgentSelector {
  import opened Wrappers
  import opened Json
  import opened AgentTypes

  /** The `enum` of the `agent_type` parameter: every member's value, in declaration order. */
  function EnumValues(): (r: seq<string>)
    ensures r == ["Comparison", "Navigation", "ProductInfo", "Fallback"]
    ensures forall s :: s in r <==> exists a: AgentType :: Value(a) == s
  {
    var r := seq(|Members|, i requires 0 <= i < |Members| => Value(Members[i]));
    assert forall a: AgentType :: Value(a) == r[MemberIndex(a)];
    r
  }

  /** Where a member sits in declaration order. */
  function MemberIndex(a: AgentType): (i: nat)
    ensures i < |Members| && Members[i] == a
  {
    match a
    case Comparison => 0
    case Navigation => 1
    case ProductInfo => 2
    case Fallback => 3
  }

  /**
    `execute(tool_call)`: `arguments.agent_type`, defaulting both missing
    levels to the FALLBACK value. The value is returned as it is, whatever
    JSON it holds; nothing checks it against the enum.
   */
  function Execute(toolCall: Object): (r: Result<Json, string>)
    ensures "arguments" !in toolCall ==> r == Success(JStr(Value(Fallback)))
    ensures "arguments" in toolCall && !toolCall["arguments"].JObj? ==> r == Failure(NoGetError)
    ensures "arguments" in toolCall && toolCall["arguments"].JObj? ==>
              var args := toolCall["arguments"].fields;
              r == Success(if "agent_type" in args then args["agent_type"] else JStr(Value(Fallback)))
  {
    var args := if "arguments" in toolCall then toolCall["arguments"] else JObj(map[]);
    if !args.JObj? then Failure(NoGetError)
    else Success(Get(args.fields, "agent_type", JStr(Value(Fallback))))
  }

  /** Any string in `arguments.agent_type` comes back unchanged, member value or not. */
  lemma ExecutePassesAnyString(toolCall: Object, s: string)
    requires "arguments" in toolCall && toolCall["arguments"] == JObj(map["agent_type" := JStr(s)])
    ensures Execute(toolCall) == Success(JStr(s))
  {
  }

  /** So the selected value can lie outside the declared enum. */
  lemma ExecuteMayLeaveEnum()
    ensures var call := map["arguments" := JObj(map["agent_type" := JStr("Shopping")])];
      Execute(call) == Success(JStr("Shopping")) && "Shopping" !in EnumValues()
  {
    var call := map["arguments" := JObj(map["agent_type" := JStr("Shopping")])];
    ExecutePassesAnyString(call, "Shopping");
  }

  /** With no arguments, or no `agent_type` among them, the selection is the FALLBACK value, a declared one. */
  lemma ExecuteDefaultInEnum(toolCall: Object)
    requires "arguments" !in toolCall
             || (toolCall["arguments"].JObj? && "agent_type" !in toolCall["arguments"].fields)
    ensures Execute(toolCall).Success? && Execute(toolCall).value.JStr?
    ensures Execute(toolCall).value.s in EnumValues()
  {
  }
}
