/** The tool-using agent as the router sees it (`modules/agents/agent.py`):
    the agent's own run is a collaborator whose outcome is a parameter. */
module Agents {
  import opened Wrappers
  import opened Text
  import Tools

  /** The dictionary `AgentManager.process_query` returns. */
  datatype AgentResult = AgentResult(answer: string, isAgentResponse: bool, toolsUsed: seq<string>)

  const AgentErrorPrefix: string := "エージェント処理中にエラーが発生しました: "

  /** `_extract_tools_used`: the calculator is reported exactly when the
      response mentions it by name or mentions calculation. */
  function ExtractToolsUsed(response: string): (r: seq<string>)
    ensures |r| <= 1
    ensures forall k :: 0 <= k < |r| ==> r[k] == "Calculator"
    ensures r != [] <==> Contains(response, "Calculator") || Contains(response, "計算")
  {
    if Contains(response, "Calculator") || Contains(response, "計算") then ["Calculator"] else []
  }

  /** `is_agent_query`: a query goes to the agent exactly when the calculator
      classifier says it is a calculation. */
  function IsAgentQuery(query: string): (r: bool)
    ensures r <==> Tools.IsMathQuery(query)
  {
    Tools.IsMathQuery(query)
  }

  /** `process_query`, given the outcome of the agent's run: never raises,
      always marks the answer as the agent's, and reports no tool on failure. */
  function ProcessQuery(run: Result<string>): (r: AgentResult)
    ensures r.isAgentResponse
    ensures |r.toolsUsed| <= 1
    ensures run.Ok? ==> r.answer == run.value
    ensures run.Err? ==> r.toolsUsed == [] && r.answer == AgentErrorPrefix + run.message
    ensures run.Ok? ==> r.toolsUsed == ExtractToolsUsed(run.value)
    ensures r.toolsUsed != [] <==> run.Ok? && (Contains(run.value, "Calculator") || Contains(run.value, "計算"))
  {
    match run
    case Ok(response) => AgentResult(response, true, ExtractToolsUsed(response))
    case Err(e) => AgentResult(AgentErrorPrefix + e, true, [])
  }

  /** The calculator's own text always mentions calculation, so an agent that
      answers with it verbatim is reported as having used the calculator. */
  lemma CalculatorOutputReportsTool(run: Result<string>)
    ensures ExtractToolsUsed(Tools.Calculate(run)) == ["Calculator"]
  {
    var t := Tools.Calculate(run);
    assert t[0..2] == "計算";
    assert OccursAt(t, "計算", 0);
  }
}
