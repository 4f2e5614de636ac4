/** The chat conversation values shared by the streaming store, the
    WebSocket handlers and the readers of the paginated conversation cache. */
module ChatTypes {
  import opened Wrappers

  datatype Role = User | Assistant

  /** `TextStatus`: the `type` of a message or reasoning status, with the
      `reason` carried by the finished kinds. */
  datatype TextStatus = Running | Complete(reason: string) | Incomplete(reason: string)

  /** The status every finalising path writes: `{ type: 'complete', reason: 'unknown' }`. */
  const CompleteUnknown: TextStatus := Complete("unknown")

  /** `ToolStatusType` */
  datatype ToolStatus = ToolPending | ToolRunning | ToolComplete | ToolIncomplete | ToolRequiresAction

  /** `FileTypeSupported`; the chat core only ever produces `Unknown`. */
  datatype FileType = Unknown | Known(name: string)

  /** An attachment for a file a tool reported as created. */
  datatype GeneratedFile = GeneratedFile(
    id: string, path: string, name: string, extension: string,
    fileType: FileType, mimeType: string)

  /** `ToolCall`; `args` stands for the JSON argument object. */
  datatype ToolCall = ToolCall(
    name: string, toolRouterKey: string, args: string, status: ToolStatus,
    result: Option<string>, generatedFiles: Option<seq<GeneratedFile>>)

  datatype Reasoning = Reasoning(text: string, status: TextStatus)

  datatype MessageMetadata = MessageMetadata(tps: Option<string>, durationMs: Option<string>)

  /** `FormattedMessage`, with the fields the chat core reads or writes. */
  datatype Message = Message(
    messageId: string,
    role: Role,
    content: string,
    status: TextStatus,
    reasoning: Option<Reasoning>,
    toolCalls: seq<ToolCall>,
    createdAt: string,
    metadata: MessageMetadata,
    providerAgentId: Option<string>)

  /** The `pages` of the paginated conversation cache, oldest page first. */
  type Pages = seq<seq<Message>>

  /** The reserved id of the placeholder assistant message. Its text is
      defined outside the modelled files; the model only compares against it. */
  const OptimisticAssistantMessageId: string := "optimistic-assistant-message"

  /** `pages.at(-1)?.at(-1)`: the last message of the last page, absent when
      there is no page or the last page is empty. */
  function LastOfLastPage(pages: Pages): (r: Option<Message>)
    ensures r.Some? <==> pages != [] && pages[|pages| - 1] != []
    ensures r.Some? ==> r.value == pages[|pages| - 1][|pages[|pages| - 1]| - 1]
  {
    if pages == [] || pages[|pages| - 1] == [] then None
    else Some(pages[|pages| - 1][|pages[|pages| - 1]| - 1])
  }

  /** The only message a finalising or tool-progress write may replace:
      the optimistic id, role assistant and still running. */
  predicate IsRunningPlaceholder(m: Message) {
    m.messageId == OptimisticAssistantMessageId && m.role == Assistant && m.status == Running
  }

  /** `pages` with the last message of the last page replaced by `m`. */
  function ReplaceLast(pages: Pages, m: Message): (r: Pages)
    requires pages != [] && pages[|pages| - 1] != []
    ensures |r| == |pages|
    ensures forall i :: 0 <= i < |pages| - 1 ==> r[i] == pages[i]
    ensures |r[|r| - 1]| == |pages[|pages| - 1]|
    ensures LastOfLastPage(r) == Some(m)
    ensures r[|r| - 1][..|r[|r| - 1]| - 1] == pages[|pages| - 1][..|pages[|pages| - 1]| - 1]
  {
    var last := pages[|pages| - 1];
    pages[|pages| - 1 := last[|last| - 1 := m]]
  }
}
