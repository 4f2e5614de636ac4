/** The agent workflow builder's data: the payload a workflow is described
    by, the canvas nodes and edges made from it, and fresh nodes added from
    the palette. */
module WorkflowUtils {
  import opened Wrappers

  datatype WorkflowNodeType = Agent | Tool | Conditional | Note | Start | Guardrail

  /** The canvas renderer for each node kind. */
  datatype FlowType = AgentFlow | ToolFlow | ConditionalFlow | NoteFlow | GuardrailFlow | StartFlow

  const DefaultLlm := "Gemini"
  const ConditionalHint := "Configure the condition to branch."

  /** `NODE_TYPE_LABELS`. */
  function TypeLabel(t: WorkflowNodeType): string {
    match t
    case Agent => "Agent"
    case Tool => "Tool"
    case Conditional => "Conditional"
    case Note => "Note"
    case Start => "Start"
    case Guardrail => "Guardrail"
  }

  /** `getFlowType`: start shares the default branch. */
  function FlowTypeOf(t: WorkflowNodeType): FlowType {
    match t
    case Agent => AgentFlow
    case Tool => ToolFlow
    case Conditional => ConditionalFlow
    case Note => NoteFlow
    case Guardrail => GuardrailFlow
    case Start => StartFlow
  }

  /** The node kind a renderer draws. */
  function NodeTypeOfFlow(f: FlowType): (t: WorkflowNodeType)
    ensures FlowTypeOf(t) == f
  {
    match f
    case AgentFlow => Agent
    case ToolFlow => Tool
    case ConditionalFlow => Conditional
    case NoteFlow => Note
    case GuardrailFlow => Guardrail
    case StartFlow => Start
  }

  /** Every node kind has its own renderer. */
  lemma FlowTypeInjective(t: WorkflowNodeType)
    ensures NodeTypeOfFlow(FlowTypeOf(t)) == t
  {
  }

  /** A drafting model and prompt for a condition. */
  datatype LlmDraft = LlmDraft(model: string, prompt: string)

  datatype ConditionalConfig =
    | ExpressionCondition(expression: string, llmDraft: Option<LlmDraft>)
    | LlmCondition(llm: LlmDraft, expressionDraft: Option<string>)

  datatype AgentConfig = AgentConfig(name: string, llm: string, instructions: Option<string>)

  datatype Position = Position(x: real, y: real)

  datatype WorkflowNodeData = WorkflowNodeData(
    labelText: string, description: Option<string>, nodeType: WorkflowNodeType,
    agentConfig: Option<AgentConfig>, conditionalConfig: Option<ConditionalConfig>)

  /** A canvas node; `selected` is the canvas's own selection state. */
  datatype WorkflowNode = WorkflowNode(id: string, flowType: FlowType, position: Position, data: WorkflowNodeData,
                                       selected: bool)

  /** A payload node: everything but the position is optional. */
  datatype PayloadNode = PayloadNode(
    nodeType: Option<WorkflowNodeType>, position: Position, labelText: Option<string>, llm: Option<string>,
    instructions: Option<string>, content: Option<string>, description: Option<string>,
    config: Option<ConditionalConfig>)

  datatype ConditionKind = Unconditional | ConditionalKind | ExpressionKind

  datatype ForwardCondition = ForwardCondition(labelText: Option<string>, kind: ConditionKind, expression: Option<string>)

  datatype PayloadEdge = PayloadEdge(source: string, target: string, forward: Option<ForwardCondition>)

  /** A payload's nodes and edges in `Object.entries` order. */
  datatype WorkflowPayload = WorkflowPayload(nodes: seq<(string, PayloadNode)>, edges: seq<(string, PayloadEdge)>)

  /** A canvas edge; the handles, label, animation and selection are the
      canvas's. */
  datatype WorkflowEdge = WorkflowEdge(
    id: string, source: string, target: string, sourceHandle: Option<string>, targetHandle: Option<string>,
    labelText: Option<string>, data: Option<ForwardCondition>, animated: bool, selected: bool)

  /** `createNodeData`. */
  function CreateNodeData(id: string, node: PayloadNode): (r: WorkflowNode)
    ensures r.id == id && r.position == node.position && !r.selected
    ensures r.data.nodeType == node.nodeType.GetOr(Tool) && r.flowType == FlowTypeOf(r.data.nodeType)
    ensures r.data.labelText == node.labelText.GetOr(TypeLabel(r.data.nodeType))
    ensures r.data.agentConfig.Some? <==> r.data.nodeType == Agent
    ensures r.data.agentConfig.Some? ==>
      r.data.agentConfig.value == AgentConfig(r.data.labelText, node.llm.GetOr(DefaultLlm), Some(node.instructions.GetOr("")))
    ensures r.data.nodeType == Conditional ==> r.data.conditionalConfig == node.config
    ensures r.data.nodeType != Conditional ==> r.data.conditionalConfig.None?
    ensures r.data.nodeType == Note ==> r.data.description == Some(node.content.OrElse(node.description).GetOr(""))
    ensures r.data.nodeType == Conditional ==> r.data.description == Some(ConditionalHint)
    ensures r.data.nodeType != Note && r.data.nodeType != Conditional ==> r.data.description.None?
  {
    var nodeType := node.nodeType.GetOr(Tool);
    var shown := node.labelText.GetOr(TypeLabel(nodeType));
    WorkflowNode(
      id, FlowTypeOf(nodeType), node.position,
      WorkflowNodeData(
        shown,
        if nodeType == Note then Some(node.content.OrElse(node.description).GetOr(""))
        else if nodeType == Conditional then Some(ConditionalHint)
        else None,
        nodeType,
        if nodeType == Agent then Some(AgentConfig(shown, node.llm.GetOr(DefaultLlm), Some(node.instructions.GetOr(""))))
        else None,
        if nodeType == Conditional then node.config else None),
      false)
  }

  /** The canvas edge for one payload edge. */
  function CreateEdge(id: string, edge: PayloadEdge): (r: WorkflowEdge)
    ensures r.id == id && r.source == edge.source && r.target == edge.target && r.data == edge.forward
    ensures edge.forward.Some? && edge.forward.value.kind == Unconditional ==> r.labelText.None?
    ensures edge.forward.Some? && edge.forward.value.kind != Unconditional ==> r.labelText == edge.forward.value.labelText
    ensures edge.forward.None? ==> r.labelText.None?
    ensures r.animated <==> edge.forward.Some? && edge.forward.value.kind == ConditionalKind
  {
    var shown := if edge.forward.Some? && edge.forward.value.kind == Unconditional then None
                 else if edge.forward.Some? then edge.forward.value.labelText
                 else None;
    WorkflowEdge(id, edge.source, edge.target, None, None, shown, edge.forward,
                 edge.forward.Some? && edge.forward.value.kind == ConditionalKind, false)
  }

  datatype WorkflowState = WorkflowState(nodes: seq<WorkflowNode>, edges: seq<WorkflowEdge>)

  /** `transformInitialData`, for any payload: one node per payload node and
      one edge per payload edge, in order, with their ids. */
  function TransformPayload(p: WorkflowPayload): (r: WorkflowState)
    ensures |r.nodes| == |p.nodes| && |r.edges| == |p.edges|
    ensures forall i :: 0 <= i < |p.nodes| ==> r.nodes[i] == CreateNodeData(p.nodes[i].0, p.nodes[i].1)
    ensures forall i :: 0 <= i < |p.edges| ==> r.edges[i] == CreateEdge(p.edges[i].0, p.edges[i].1)
  {
    WorkflowState(
      seq(|p.nodes|, i requires 0 <= i < |p.nodes| => CreateNodeData(p.nodes[i].0, p.nodes[i].1)),
      seq(|p.edges|, i requires 0 <= i < |p.edges| => CreateEdge(p.edges[i].0, p.edges[i].1)))
  }

  /** The canvas keeps the payload's ids and connections. */
  lemma TransformKeepsGraph(p: WorkflowPayload, i: int, j: int)
    requires 0 <= i < |p.nodes| && 0 <= j < |p.edges|
    ensures var r := TransformPayload(p);
      && r.nodes[i].id == p.nodes[i].0 && r.nodes[i].position == p.nodes[i].1.position
      && r.edges[j].id == p.edges[j].0
      && r.edges[j].source == p.edges[j].1.source && r.edges[j].target == p.edges[j].1.target
  {
  }

  /** `generateNode` for a palette kind (every kind but start), with a
      fresh `id`; `fallback` stands for the random position used when none
      is given. */
  function GenerateNode(t: WorkflowNodeType, id: string, position: Option<Position>, fallback: Position): (r: WorkflowNode)
    requires t != Start
    ensures r.id == id && r.flowType == FlowTypeOf(t) && r.data.nodeType == t && !r.selected
    ensures position.Some? ==> r.position == position.value
    ensures r.data.labelText == TypeLabel(t) + " Node"
    ensures r.data.agentConfig.Some? <==> t == Agent
    ensures t == Agent ==> r.data.agentConfig == Some(AgentConfig("New Agent", DefaultLlm, Some("")))
    ensures r.data.conditionalConfig.Some? <==> t == Conditional
    ensures t == Conditional ==> r.data.conditionalConfig.value.ExpressionCondition?
                                 && r.data.conditionalConfig.value.expression == "true"
                                 && r.data.conditionalConfig.value.llmDraft == Some(LlmDraft("gpt-4.1-mini", "Do this if: "))
    // Notes start with an empty description, conditionals with the hint,
    // and every other kind with none.
    ensures t == Note ==> r.data.description == Some("")
    ensures t == Conditional ==> r.data.description == Some(ConditionalHint)
    ensures t != Note && t != Conditional ==> r.data.description.None?
  {
    WorkflowNode(
      id, FlowTypeOf(t), position.GetOr(fallback),
      WorkflowNodeData(
        TypeLabel(t) + " Node",
        if t == Note then Some("") else if t == Conditional then Some(ConditionalHint) else None,
        t,
        if t == Agent then Some(AgentConfig("New Agent", DefaultLlm, Some(""))) else None,
        if t == Conditional then Some(ExpressionCondition("true", Some(LlmDraft("gpt-4.1-mini", "Do this if: ")))) else None),
      false)
  }

  /** A generated node and a payload node of the same kind with no label
      get different labels: the palette adds " Node". */
  lemma GeneratedLabelDiffers(t: WorkflowNodeType, id: string, node: PayloadNode, fallback: Position)
    requires t != Start && node.nodeType == Some(t) && node.labelText.None?
    ensures GenerateNode(t, id, None, fallback).data.labelText == CreateNodeData(id, node).data.labelText + " Node"
  {
  }
}
