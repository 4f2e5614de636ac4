/** The wrapper that renders the optimistic assistant message with the
    in-flight turn of its inbox laid over the cached copy. */
module StreamingMessage {
  import opened Wrappers
  import opened ChatTypes
  import opened StreamingStore

  /** Only the optimistic assistant message reads the streaming store; the
      message id is the one the list passes in, not the message's own. */
  predicate IsOptimisticMessage(message: Message, messageId: string) {
    messageId == OptimisticAssistantMessageId && message.role == Assistant
  }

  /** The inbox the wrapper subscribes to: the prop when it is non-empty,
      else the (decoded) route parameter; the empty id for every other
      message. */
  function SubscribedInbox(message: Message, messageId: string, inboxProp: string, routeInbox: Option<string>): (r: string)
    ensures !IsOptimisticMessage(message, messageId) ==> r == ""
    ensures IsOptimisticMessage(message, messageId) && inboxProp != "" ==> r == inboxProp
    ensures IsOptimisticMessage(message, messageId) && inboxProp == "" ==> r == routeInbox.GetOr("")
  {
    if IsOptimisticMessage(message, messageId) then
      if inboxProp != "" then inboxProp else routeInbox.GetOr("")
    else ""
  }

  /** Streamed data counts only when there is some: text, reasoning text or
      a tool call. An entry that stopped streaming still counts. */
  predicate HasStreamingContent(c: Option<StreamingContent>) {
    c.Some? &&
    (c.value.content != "" || (c.value.reasoning.Some? && c.value.reasoning.value.text != "") || |c.value.toolCalls| > 0)
  }

  /** `mergedMessage`. */
  function MergedMessage(message: Message, messageId: string, streamed: Option<StreamingContent>): (r: Message)
    ensures !IsOptimisticMessage(message, messageId) || !HasStreamingContent(streamed) ==> r == message
    ensures r.(content := message.content, reasoning := message.reasoning, toolCalls := message.toolCalls) == message
    ensures IsOptimisticMessage(message, messageId) && HasStreamingContent(streamed) ==>
      var c := streamed.value;
      && r.content == (if c.content != "" then c.content else message.content)
      && r.reasoning == (if c.reasoning.Some? then c.reasoning else message.reasoning)
      && r.toolCalls == (if |c.toolCalls| > 0 then c.toolCalls else message.toolCalls)
  {
    if !IsOptimisticMessage(message, messageId) then message
    else if HasStreamingContent(streamed) then
      var c := streamed.value;
      message.(content := if c.content != "" then c.content else message.content,
               reasoning := if c.reasoning.Some? then c.reasoning else message.reasoning,
               toolCalls := if |c.toolCalls| > 0 then c.toolCalls else message.toolCalls)
    else message
  }

  /** What the wrapper renders, reading the store under the subscribed id. */
  function RenderedMessage(message: Message, messageId: string, inboxProp: string, routeInbox: Option<string>,
                           s: StoreState): Message
  {
    MergedMessage(message, messageId, StreamingContentOf(s, SubscribedInbox(message, messageId, inboxProp, routeInbox)))
  }

  /** Merging twice with the same entry merges once: every field the merge
      writes prefers the streamed value whenever one is present. */
  lemma MergeIdempotent(message: Message, messageId: string, streamed: Option<StreamingContent>)
    ensures var once := MergedMessage(message, messageId, streamed);
      MergedMessage(once, messageId, streamed) == once
  {
  }

  /** While its inbox streams, the rendered optimistic message shows the
      streamed text as soon as there is any: the cached copy's text is
      never shown over a non-empty stream. */
  lemma StreamedTextWins(message: Message, inboxProp: string, routeInbox: Option<string>, s: StoreState)
    requires message.role == Assistant && inboxProp != ""
    requires StreamingContentOf(s, inboxProp).Some? && StreamingContentOf(s, inboxProp).value.content != ""
    ensures RenderedMessage(message, OptimisticAssistantMessageId, inboxProp, routeInbox, s).content
            == StreamingContentOf(s, inboxProp).value.content
  {
  }

  /** Clearing the inbox's entry hands the rendering back to the cache. */
  lemma ClearedInboxShowsCache(message: Message, messageId: string, inboxProp: string, routeInbox: Option<string>,
                               s: StoreState)
    requires inboxProp != ""
    ensures RenderedMessage(message, messageId, inboxProp, routeInbox, InboxCleared(s, inboxProp)) == message
  {
  }
}
