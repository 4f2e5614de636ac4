/** The WebSocket side of a chat: the URL of the node's socket, the frame
    handler that buffers streamed tokens and drives the streaming store, the
    tool-widget handler, and the inbox subscriptions.

    A frame is taken as the already-parsed value of `JSON.parse`; the
    50 ms flush timer is a counter of pending flushes that `Tick` consumes;
    the clock is the parameter `now` (and `nowIso`, its ISO rendering). */
module WebSocketMessage {
  import opened Wrappers
  import opened Text
  import opened OrderedMap
  import opened ChatTypes
  import opened StreamingStore
  import opened Session

  // ---------------------------------------------------------------------
  // Socket URL

  /** The host names treated as the local node, whose socket listens one
      port above the HTTP API. */
  const LocalHosts: seq<string> := ["localhost", "0.0.0.0", "127.0.0.1"]

  /** `getWebSocketUrl`, from the parsed node address: its host name and
      `Number(port)`, which is 0 when the address names no port. */
  function WebSocketUrl(hostname: string, port: nat): string {
    if hostname in LocalHosts then "ws://" + hostname + ":" + NatToString(port + 1) + "/ws"
    else if port != 0 then "ws://" + hostname + ":" + NatToString(port) + "/ws"
    else "ws://" + hostname + "/ws"
  }

  /** Reads back host and port from a `ws://host[:port]/ws` URL, in the
      form of section 3 of RFC 6455; the port is 0 when absent. */
  function ParseWebSocketUrl(url: string): Option<(string, nat)> {
    if |url| < 8 || !StartsWith(url, "ws://") || !EndsWith(url, "/ws") then None
    else ParseAuthority(url[5..|url| - 3])
  }

  /** `host[:port]` in the form of section 3.2 of RFC 3986: a host
      starting with '[' is an IP literal that runs to the first ']', so
      the colons of an IPv6 address stay in it; any other host runs to the
      first ':'. */
  function ParseAuthority(authority: string): Option<(string, nat)> {
    if authority != [] && authority[0] == '[' then
      match IndexOf(authority, "]")
      case None => None
      case Some(k) => ParsePort(authority[..k + 1], authority[k + 1..])
    else
      match IndexOf(authority, ":")
      case None => Some((authority, 0))
      case Some(i) => ParsePort(authority[..i], authority[i..])
  }

  /** What follows the host: nothing (port 0), or ':' and decimal digits. */
  function ParsePort(host: string, rest: string): (r: Option<(string, nat)>)
    ensures rest == [] ==> r == Some((host, 0))
  {
    if rest == [] then Some((host, 0))
    else if rest[0] == ':' && |rest| > 1 && AllDigits(rest[1..]) then Some((host, ParseNat(rest[1..])))
    else None
  }

  /** A bracketed IP literal such as "[::1]": its only ']' closes it. */
  predicate IsIpLiteral(h: string) {
    |h| >= 2 && h[0] == '[' && IndexOf(h, "]") == Some(|h| - 1)
  }

  /** A host name as a parsed URL gives it: an IP literal, or a name with
      no ':' that does not start with '['. */
  predicate IsHostName(h: string) {
    IsIpLiteral(h) || (':' !in h && (h == [] || h[0] != '['))
  }

  lemma UrlAuthority(authority: string)
    ensures ParseWebSocketUrl("ws://" + authority + "/ws") == ParseAuthority(authority)
  {
    var url := "ws://" + authority + "/ws";
    assert url[..5] == "ws://";
    assert url[|url| - 3..] == "/ws";
    assert url[5..|url| - 3] == authority;
  }

  lemma NoColon(h: string)
    requires ':' !in h
    ensures IndexOf(h, ":") == None
  {
    forall j | 0 <= j < |h| ensures !OccursAt(h, ":", j) {
      assert h[j..j + 1][0] == h[j];
    }
  }

  lemma FirstColon(h: string, t: string)
    requires ':' !in h
    ensures IndexOf(h + ":" + t, ":") == Some(|h|)
  {
    var a := h + ":" + t;
    assert OccursAt(a, ":", |h|) by {
      assert a[|h|..|h| + 1] == [':'];
    }
    forall j | 0 <= j < |h| ensures !OccursAt(a, ":", j) {
      assert a[j] == h[j];
      assert a[j] == a[j..j + 1][0];
    }
  }

  /** The host is read back from an authority that starts with it. */
  lemma HostSplit(h: string, rest: string)
    requires IsHostName(h)
    requires rest == [] || rest[0] == ':'
    ensures ParseAuthority(h + rest) == ParsePort(h, rest)
  {
    var a := h + rest;
    assert a[..|h|] == h && a[|h|..] == rest;
    if IsIpLiteral(h) {
      assert a[0] == h[0];
      IndexOfExtended(h, rest, "]");
    } else if rest == [] {
      assert a == h;
      NoColon(h);
    } else {
      assert h != [] ==> a[0] == h[0];
      assert a == h + ":" + rest[1..];
      FirstColon(h, rest[1..]);
    }
  }

  lemma AuthorityWithPort(h: string, p: nat)
    requires IsHostName(h)
    ensures ParseAuthority(h + ":" + NatToString(p)) == Some((h, p))
  {
    var digits := NatToString(p);
    assert h + ":" + digits == h + (":" + digits);
    HostSplit(h, ":" + digits);
    assert (":" + digits)[1..] == digits;
    ParseNatToString(p);
  }

  /** The URL gives back its host and port: the API port plus one for the
      local node, the port itself otherwise (0 standing for none). Host
      names are those of a parsed URL, bracketed IPv6 literals included. */
  lemma WebSocketUrlRoundTrip(hostname: string, port: nat)
    requires IsHostName(hostname)
    ensures ParseWebSocketUrl(WebSocketUrl(hostname, port)) ==
      Some((hostname, if hostname in LocalHosts then port + 1 else port))
  {
    var p := if hostname in LocalHosts then port + 1 else port;
    if hostname in LocalHosts || port != 0 {
      var authority := hostname + ":" + NatToString(p);
      assert WebSocketUrl(hostname, port) == "ws://" + authority + "/ws";
      UrlAuthority(authority);
      AuthorityWithPort(hostname, p);
    } else {
      UrlAuthority(hostname);
      assert hostname + [] == hostname;
      HostSplit(hostname, []);
    }
  }

  /** The loopback IPv6 literal, as `new URL("http://[::1]:9550")` names
      its host, reads back with its port. */
  lemma Ipv6LoopbackRoundTrip()
    ensures ParseWebSocketUrl(WebSocketUrl("[::1]", 9550)) == Some(("[::1]", 9550))
  {
    var h := "[::1]";
    assert OccursAt(h, "]", 4);
    forall j | 0 <= j < 4 ensures !OccursAt(h, "]", j) {
      assert h[j..j + 1][0] == h[j];
    }
    IndexOfFirst(h, "]", 4);
    WebSocketUrlRoundTrip(h, 9550);
  }

  // ---------------------------------------------------------------------
  // Frames

  datatype MessageType = ShinkaiMessageType | StreamType | WidgetType | OtherType(name: string)

  /** The `metadata` of a stream frame. */
  datatype StreamMetadata = StreamMetadata(isReasoning: bool, isDone: bool, id: Option<string>)

  /** `JSON.parse` of a tool response: it throws, or gives an object whose
      `data.__created_files__` and `__created_files__` may be present. */
  datatype ResponseJson =
    | ResponseUnparseable
    | ResponseObject(dataCreatedFiles: Option<seq<string>>, createdFiles: Option<seq<string>>)

  /** One entry of `metadata.function_calls`; `responseJson` is what parsing
      `response` gives. */
  datatype FunctionCall = FunctionCall(
    name: string, arguments: string, toolRouterKey: string,
    response: Option<string>, responseJson: ResponseJson)

  /** The parsed `message_raw_content` of a final assistant message. */
  datatype RawContent = RawContent(
    content: Option<string>, reasoningContent: Option<string>,
    functionCalls: seq<FunctionCall>, tps: Option<string>)

  /** The fields of a parsed ShinkaiMessage the handler reads. `rawContent`
      is `None` when `message_raw_content` does not parse. */
  datatype ShinkaiMsg = ShinkaiMsg(
    sender: string, senderSubidentity: string,
    signature: Option<string>, externalSignature: Option<string>,
    scheduledTime: Option<string>, rawContent: Option<RawContent>)

  /** `JSON.parse(parseData.message)` for a ShinkaiMessage frame. */
  datatype ShinkaiPayload = PayloadUnparseable | PayloadMessage(msg: ShinkaiMsg)

  /** `widget.ToolRequest`. */
  datatype ToolRequest = ToolRequest(
    toolName: string, args: string, status: ToolStatus,
    toolRouterKey: Option<string>, resultMessage: Option<string>, index: nat)

  /** A widget object: its keys in order and the two entries the handler reads. */
  datatype Widget = Widget(keys: seq<string>, toolRequest: Option<ToolRequest>, hasPaymentRequest: bool)

  /** A parsed frame. `payload` is consulted only for a ShinkaiMessage frame
      with a non-empty `message`. */
  datatype WsFrame = WsFrame(
    inbox: string, messageType: MessageType, message: string, payload: ShinkaiPayload,
    metadata: Option<StreamMetadata>, widget: Option<Widget>)

  /** `lastMessage.data`: a frame, or text `JSON.parse` rejects. */
  datatype Incoming = Garbled | Received(frame: WsFrame)

  predicate IsShinkaiMessage(f: WsFrame) {
    f.messageType == ShinkaiMessageType && f.message != ""
  }

  /** A frame the user's own node echoed: sender and sub-identity are the
      logged-in identity and profile. */
  predicate IsUserMessage(f: WsFrame, auth: Auth) {
    IsShinkaiMessage(f) && f.payload.PayloadMessage? &&
    f.payload.msg.sender == auth.shinkaiIdentity && f.payload.msg.senderSubidentity == auth.profile
  }

  predicate IsAssistantMessage(f: WsFrame, auth: Auth) {
    IsShinkaiMessage(f) && f.payload.PayloadMessage? && !IsUserMessage(f, auth)
  }

  // ---------------------------------------------------------------------
  // Tool calls of a final message

  /** The attachment for a created file: id and path are the path, the
      name is what follows its last '/', the extension what follows the
      name's last '.' (the whole name when it has no '.'). */
  function GeneratedFileFor(path: string): (f: GeneratedFile)
    ensures f.id == path && f.path == path
    ensures IsTextAfterLast(path, '/', f.name)
    ensures IsTextAfterLast(f.name, '.', f.extension)
    ensures '.' !in f.name ==> f.extension == f.name
    ensures f.fileType == Unknown && f.mimeType == "application/octet-stream"
  {
    var name := AfterLast(path, '/');
    var extension := AfterLast(name, '.');
    AfterLastIsTextAfterLast(path, '/');
    AfterLastIsTextAfterLast(name, '.');
    AfterLastNoSep(name, '.');
    GeneratedFile(path, path, name, extension, Unknown, "application/octet-stream")
  }

  /** `responseData?.data?.__created_files__ ?? responseData?.__created_files__`. */
  function CreatedFiles(r: ResponseJson): Option<seq<string>> {
    match r
    case ResponseUnparseable => None
    case ResponseObject(inData, atTop) => inData.OrElse(atTop)
  }

  /** The generated files of a function call: one per created path, in
      order, and none when the response is empty, does not parse, or
      lists no file. */
  function GeneratedFilesOf(fc: FunctionCall): (r: Option<seq<GeneratedFile>>)
    ensures r.Some? <==> (fc.response.Some? && fc.response.value != "" &&
                          CreatedFiles(fc.responseJson).Some? && |CreatedFiles(fc.responseJson).value| > 0)
    ensures r.Some? ==> var files := CreatedFiles(fc.responseJson).value;
      |r.value| == |files| && forall i :: 0 <= i < |files| ==> r.value[i] == GeneratedFileFor(files[i])
  {
    if fc.response.None? || fc.response.value == "" then None
    else
      var files := CreatedFiles(fc.responseJson);
      if files.Some? && |files.value| > 0 then
        Some(seq(|files.value|, i requires 0 <= i < |files.value| => GeneratedFileFor(files.value[i])))
      else None
  }

  /** The tool call a final message reports for one function call: marked
      complete, with the response (or "") as its result. */
  function ToolCallOf(fc: FunctionCall): ToolCall {
    ToolCall(fc.name, fc.toolRouterKey, fc.arguments, ToolComplete, Some(fc.response.GetOr("")), GeneratedFilesOf(fc))
  }

  // ---------------------------------------------------------------------
  // Finalisation values

  /** The options of `flushTokenBuffer`; `tps` is the rendered `tps` number. */
  datatype FlushOptions = FlushOptions(
    finalMessageId: Option<string>, markComplete: bool,
    realContent: Option<string>, realReasoning: Option<string>,
    toolCalls: Option<seq<ToolCall>>, createdAt: Option<string>, tps: Option<string>)

  const NoOptions := FlushOptions(None, false, None, None, None, None, None)

  /** What the final assistant message is built from. */
  datatype FinalValues = FinalValues(content: string, reasoning: Option<Reasoning>, toolCalls: seq<ToolCall>)

  /** Content: the real content, else the streamed content, else "".
      Reasoning: a non-empty real reasoning, else the streamed reasoning,
      in both cases marked complete. Tool calls: the given ones, else the
      streamed ones when there are any, else none. */
  function FinalValuesOf(opts: FlushOptions, streamed: Option<StreamingContent>): (v: FinalValues)
    ensures opts.realContent.Some? ==> v.content == opts.realContent.value
    ensures opts.realContent.None? && streamed.Some? ==> v.content == streamed.value.content
    ensures opts.realContent.None? && streamed.None? ==> v.content == ""
    ensures opts.realReasoning.Some? && opts.realReasoning.value != "" ==>
      v.reasoning == Some(Reasoning(opts.realReasoning.value, CompleteUnknown))
    ensures (opts.realReasoning.None? || opts.realReasoning.value == "") ==>
      (v.reasoning.Some? <==> streamed.Some? && streamed.value.reasoning.Some?) &&
      (v.reasoning.Some? ==> v.reasoning.value == Reasoning(streamed.value.reasoning.value.text, CompleteUnknown))
    ensures opts.toolCalls.Some? ==> v.toolCalls == opts.toolCalls.value
    ensures opts.toolCalls.None? ==> v.toolCalls == if streamed.Some? then streamed.value.toolCalls else []
  {
    var content := if opts.realContent.Some? then opts.realContent.value
                   else if streamed.Some? then streamed.value.content else "";
    var reasoning := if opts.realReasoning.Some? && opts.realReasoning.value != "" then
                       Some(Reasoning(opts.realReasoning.value, CompleteUnknown))
                     else if streamed.Some? && streamed.value.reasoning.Some? then
                       Some(streamed.value.reasoning.value.(status := CompleteUnknown))
                     else None;
    var toolCalls := if opts.toolCalls.Some? then opts.toolCalls.value
                     else if streamed.Some? && |streamed.value.toolCalls| > 0 then streamed.value.toolCalls
                     else [];
    FinalValues(content, reasoning, toolCalls)
  }

  // ---------------------------------------------------------------------
  // Cache updaters

  /** True when the cache's last message is the running placeholder; the
      only state in which either updater writes. */
  predicate EndsInPlaceholder(cache: Option<Pages>) {
    cache.Some? && LastOfLastPage(cache.value).Some? && IsRunningPlaceholder(LastOfLastPage(cache.value).value)
  }

  /** Only the last message of the last page may differ. */
  ghost predicate OnlyLastMessageChanged(before: Pages, after: Pages) {
    && |after| == |before|
    && (forall i :: 0 <= i < |before| - 1 ==> after[i] == before[i])
    && (before != [] ==> |after[|after| - 1]| == |before[|before| - 1]|)
    && (before != [] && before[|before| - 1] != [] ==>
          after[|after| - 1][..|after[|after| - 1]| - 1] == before[|before| - 1][..|before[|before| - 1]| - 1])
  }

  /** The placeholder turned into the final message. */
  function FinalMessage(m: Message, opts: FlushOptions, v: FinalValues): Message {
    m.(messageId := opts.finalMessageId.GetOr(m.messageId),
       createdAt := opts.createdAt.GetOr(m.createdAt),
       content := if v.content != "" then v.content else m.content,
       status := CompleteUnknown,
       reasoning := v.reasoning.OrElse(m.reasoning),
       toolCalls := if |v.toolCalls| > 0 then v.toolCalls else m.toolCalls,
       metadata := m.metadata.(tps := opts.tps.OrElse(m.metadata.tps)))
  }

  /** The finalising `setQueryData` updater: it rewrites the last message of
      the last page when that is the running placeholder, and otherwise
      returns the cache as it was. */
  function FinalizedCache(cache: Option<Pages>, opts: FlushOptions, v: FinalValues): (r: Option<Pages>)
    ensures !EndsInPlaceholder(cache) ==> r == cache
    ensures EndsInPlaceholder(cache) ==>
      var m := LastOfLastPage(cache.value).value;
      && r.Some? && OnlyLastMessageChanged(cache.value, r.value)
      && LastOfLastPage(r.value) == Some(FinalMessage(m, opts, v))
  {
    if EndsInPlaceholder(cache) then
      Some(ReplaceLast(cache.value, FinalMessage(LastOfLastPage(cache.value).value, opts, v)))
    else cache
  }

  /** The tool call a widget frame reports. */
  function ToolCallFromRequest(t: ToolRequest): ToolCall {
    ToolCall(t.toolName, t.toolRouterKey.GetOr(""), t.args, t.status, t.resultMessage, None)
  }

  /** The placeholder's tool calls after a tool widget: the slot at the
      request's index gets the new status and result, or the request is
      appended when there is no such slot. */
  function FallbackToolCalls(calls: seq<ToolCall>, t: ToolRequest): (r: seq<ToolCall>)
    ensures t.index < |calls| ==>
      |r| == |calls| && r[t.index] == calls[t.index].(status := t.status, result := t.resultMessage)
    ensures t.index >= |calls| ==> r == calls + [ToolCallFromRequest(t)]
    ensures forall j :: 0 <= j < |calls| && j != t.index ==> r[j] == calls[j]
  {
    if t.index < |calls| then calls[t.index := calls[t.index].(status := t.status, result := t.resultMessage)]
    else calls + [ToolCallFromRequest(t)]
  }

  /** The tool-widget `setQueryData` fallback: only the placeholder's tool
      calls change, and only while it is the running placeholder. */
  function ToolFallbackCache(cache: Option<Pages>, t: ToolRequest): (r: Option<Pages>)
    ensures !EndsInPlaceholder(cache) ==> r == cache
    ensures EndsInPlaceholder(cache) ==>
      var m := LastOfLastPage(cache.value).value;
      && r.Some? && OnlyLastMessageChanged(cache.value, r.value)
      && LastOfLastPage(r.value) == Some(m.(toolCalls := FallbackToolCalls(m.toolCalls, t)))
  {
    if EndsInPlaceholder(cache) then
      var m := LastOfLastPage(cache.value).value;
      Some(ReplaceLast(cache.value, m.(toolCalls := FallbackToolCalls(m.toolCalls, t))))
    else cache
  }

  /** Finalisation acts once: the finalised message is no longer running,
      so a second finalisation leaves the cache as the first left it. */
  lemma FinalizeOnce(cache: Option<Pages>, o1: FlushOptions, v1: FinalValues, o2: FlushOptions, v2: FinalValues)
    ensures var once := FinalizedCache(cache, o1, v1);
      FinalizedCache(once, o2, v2) == once
  {
    var once := FinalizedCache(cache, o1, v1);
    if EndsInPlaceholder(cache) {
      assert LastOfLastPage(once.value).value.status == CompleteUnknown;
    }
  }

  /** Once finalised, the message ignores late tool widgets. */
  lemma ToolFallbackAfterFinalize(cache: Option<Pages>, o: FlushOptions, v: FinalValues, t: ToolRequest)
    ensures var done := FinalizedCache(cache, o, v);
      ToolFallbackCache(done, t) == done
  {
    var done := FinalizedCache(cache, o, v);
    if EndsInPlaceholder(cache) {
      assert LastOfLastPage(done.value).value.status == CompleteUnknown;
    }
  }

  // ---------------------------------------------------------------------
  // The frame handler's state

  /** What a handler does besides writing the store and the cache:
      invalidate the conversation query now or after the one-second delay,
      or hand a widget to the tools store. */
  datatype Effect = InvalidateConversation | InvalidateConversationLater | SetWidget(name: Option<string>)

  /** The refs of `useWebSocketMessage` (`pendingFlushes` counts the flush
      timers not yet fired), the streaming store, the conversation's cache
      entry and the effects issued so far. */
  datatype SocketState = SocketState(
    tokenBuffer: string, reasoningBuffer: string,
    flushScheduled: bool, pendingFlushes: nat,
    hasStreamCompleted: bool, isStreamSupported: bool,
    store: StoreState, cache: Option<Pages>, effects: seq<Effect>)

  /** The scheduled flag is set only while a flush timer is pending. The
      converse does not hold: a finalising flush clears the flag while the
      timer scheduled before it is still pending, so a later token can
      start a second one (`SecondTimerAfterDone`). */
  predicate FlushInvariant(st: SocketState) {
    st.flushScheduled ==> st.pendingFlushes > 0
  }

  /** The buffered reasoning is applied first, then the buffered content;
      an empty buffer is not applied. */
  function BuffersApplied(store: StoreState, inbox: string, reasoning: string, tokens: string, now: int): StoreState {
    var s1 := if reasoning != "" then ReasoningAppended(store, inbox, reasoning, now) else store;
    if tokens != "" then ContentAppended(s1, inbox, tokens, now) else s1
  }

  /** The finalising half of `flushTokenBuffer`: the cache's placeholder is
      rewritten from the streamed entry, the entry stops streaming (it is
      neither cleared nor its duration saved), and a delayed invalidation is
      issued when there are tool calls. */
  function Finalized(st: SocketState, inbox: string, opts: FlushOptions, now: int): SocketState {
    var v := FinalValuesOf(opts, StreamingContentOf(st.store, inbox));
    st.(cache := FinalizedCache(st.cache, opts, v),
        store := StreamingEnded(st.store, inbox, now),
        effects := st.effects + if |v.toolCalls| > 0 then [InvalidateConversationLater] else [])
  }

  /** `flushTokenBuffer`: with nothing buffered and no finalisation it only
      clears the scheduled flag; otherwise it also empties both buffers into
      the store and, when asked, finalises. */
  function Flushed(st: SocketState, inbox: string, opts: FlushOptions, now: int): (r: SocketState)
    ensures !opts.markComplete && st.tokenBuffer == "" && st.reasoningBuffer == "" ==> r == st.(flushScheduled := false)
    ensures (r.tokenBuffer == "" && r.reasoningBuffer == "") ||
            (!opts.markComplete && r.tokenBuffer == st.tokenBuffer && r.reasoningBuffer == st.reasoningBuffer)
    ensures !r.flushScheduled && r.pendingFlushes == st.pendingFlushes
    ensures r.hasStreamCompleted == st.hasStreamCompleted && r.isStreamSupported == st.isStreamSupported
    ensures !opts.markComplete ==>
      r.cache == st.cache && r.effects == st.effects &&
      r.store == BuffersApplied(st.store, inbox, st.reasoningBuffer, st.tokenBuffer, now)
    ensures opts.markComplete ==>
      !IsStreamingIn(r.store, inbox) && r.store.durations == st.store.durations &&
      (StreamingContentOf(r.store, inbox).Some? <==> StreamingContentOf(st.store, inbox).Some?)
    ensures OtherStreamsUnchanged(st.store, r.store, inbox)
  {
    var st0 := st.(flushScheduled := false);
    if st.tokenBuffer == "" && st.reasoningBuffer == "" && !opts.markComplete then st0
    else
      var st1 := st0.(store := BuffersApplied(st.store, inbox, st.reasoningBuffer, st.tokenBuffer, now),
                      tokenBuffer := "", reasoningBuffer := "");
      if opts.markComplete then Finalized(st1, inbox, opts, now) else st1
  }

  /** The options a final assistant message finalises with. */
  function FinalOptions(msg: ShinkaiMsg, raw: RawContent, nowIso: string): FlushOptions {
    var calls := seq(|raw.functionCalls|, i requires 0 <= i < |raw.functionCalls| => ToolCallOf(raw.functionCalls[i]));
    FlushOptions(
      finalMessageId := msg.signature.OrElse(msg.externalSignature),
      markComplete := true,
      realContent := Some(raw.content.GetOr("")),
      realReasoning := raw.reasoningContent,
      toolCalls := if |calls| > 0 then Some(calls) else None,
      createdAt := Some(msg.scheduledTime.GetOr(nowIso)),
      tps := raw.tps)
  }

  /** Finalisation with nothing but the streamed data. */
  const CompleteOnly := NoOptions.(markComplete := true)

  /** The user's own message came back: a new turn starts. */
  function UserTurnStarted(st: SocketState, inbox: string): SocketState {
    st.(hasStreamCompleted := false, tokenBuffer := "", reasoningBuffer := "", store := Started(st.store, inbox))
  }

  /** The assistant's final message: without stream support only the
      conversation is refetched; otherwise it finalises once per turn. */
  function AssistantMessageHandled(st: SocketState, inbox: string, msg: ShinkaiMsg, now: int, nowIso: string): SocketState {
    if !st.isStreamSupported then st.(effects := st.effects + [InvalidateConversation])
    else
      var st1 := st.(isStreamSupported := false);
      if st1.hasStreamCompleted then st1
      else
        var opts := if msg.rawContent.Some? then FinalOptions(msg, msg.rawContent.value, nowIso) else CompleteOnly;
        Flushed(st1, inbox, opts, now).(hasStreamCompleted := true)
  }

  /** The first half of a stream token: the turn is (re)started if the
      inbox is not streaming, and the token goes to the reasoning buffer
      when the frame says so, to the content buffer otherwise. */
  function TokenBuffered(st: SocketState, inbox: string, f: WsFrame): SocketState {
    var store := if IsStreamingIn(st.store, inbox) then st.store else Started(st.store, inbox);
    if f.metadata.Some? && f.metadata.value.isReasoning
    then st.(store := store, reasoningBuffer := st.reasoningBuffer + f.message)
    else st.(store := store, tokenBuffer := st.tokenBuffer + f.message)
  }

  /** A stream token: the turn is (re)started if the inbox is not
      streaming, the token is buffered, and then either the turn is
      finalised (`is_done` before the latch) or a flush is scheduled unless
      one already is. */
  function StreamFrameHandled(st: SocketState, inbox: string, f: WsFrame, now: int): SocketState {
    var st1 := TokenBuffered(st, inbox, f);
    if f.metadata.Some? && f.metadata.value.isDone && !st1.hasStreamCompleted then
      Flushed(st1.(hasStreamCompleted := true), inbox, CompleteOnly.(finalMessageId := f.metadata.value.id), now)
    else if !st1.flushScheduled then st1.(flushScheduled := true, pendingFlushes := st1.pendingFlushes + 1)
    else st1
  }

  /** The frame effect of `useWebSocketMessage`. */
  function FrameHandled(st: SocketState, inbox: string, enabled: bool, auth: Option<Auth>,
                        incoming: Incoming, now: int, nowIso: string): (r: SocketState)
    ensures !enabled || auth.None? || incoming.Garbled? ==> r == st
    ensures incoming.Received? && incoming.frame.inbox != inbox ==> r == st
    ensures FlushInvariant(st) ==> FlushInvariant(r)
    ensures r.pendingFlushes == st.pendingFlushes ||
            (r.pendingFlushes == st.pendingFlushes + 1 && !st.flushScheduled && r.flushScheduled)
    ensures r.cache != st.cache ==> !st.hasStreamCompleted && r.hasStreamCompleted
  {
    if !enabled || auth.None? || incoming.Garbled? then st
    else
      var f := incoming.frame;
      if f.inbox != inbox then st
      else if IsShinkaiMessage(f) && f.payload.PayloadUnparseable? then st
      else if IsUserMessage(f, auth.value) then UserTurnStarted(st, inbox)
      else if IsAssistantMessage(f, auth.value) then AssistantMessageHandled(st, inbox, f.payload.msg, now, nowIso)
      else if f.messageType != StreamType then st.(isStreamSupported := false)
      else StreamFrameHandled(st.(isStreamSupported := true), inbox, f, now)
  }

  /** A flush timer fires. */
  function Ticked(st: SocketState, inbox: string, now: int): (r: SocketState)
    ensures st.pendingFlushes == 0 ==> r == st
    ensures st.pendingFlushes > 0 ==> r.pendingFlushes == st.pendingFlushes - 1 && !r.flushScheduled
    ensures r.cache == st.cache && r.hasStreamCompleted == st.hasStreamCompleted && r.effects == st.effects
  {
    if st.pendingFlushes == 0 then st
    else Flushed(st.(pendingFlushes := st.pendingFlushes - 1), inbox, NoOptions, now)
  }

  /** A tool widget: while the inbox streams it goes to the store,
      otherwise to the cached placeholder. */
  function ToolRequestApplied(st: SocketState, inbox: string, t: ToolRequest): SocketState {
    if IsStreamingIn(st.store, inbox) then
      st.(store := ToolCallUpdated(st.store, inbox, ToolCallFromRequest(t), t.index))
    else st.(cache := ToolFallbackCache(st.cache, t))
  }

  /** The frame effect of `useWebSocketTools`: it touches only the store,
      the cache and the effects, and exactly one of store and cache. */
  function ToolFrameHandled(st: SocketState, inbox: string, enabled: bool, incoming: Incoming): (r: SocketState)
    ensures !enabled || incoming.Garbled? || incoming.frame.inbox != inbox ==> r == st
    ensures r.(store := st.store, cache := st.cache, effects := st.effects) == st
    ensures IsStreamingIn(st.store, inbox) ==> r.cache == st.cache
    ensures !IsStreamingIn(st.store, inbox) ==> r.store == st.store
    ensures st.effects <= r.effects && |r.effects| <= |st.effects| + 1
  {
    if !enabled || incoming.Garbled? || incoming.frame.inbox != inbox then st
    else
      var f := incoming.frame;
      if f.messageType != WidgetType || f.widget.None? then st
      else
        var w := f.widget.value;
        var st1 := if w.toolRequest.Some? then ToolRequestApplied(st, inbox, w.toolRequest.value) else st;
        if w.hasPaymentRequest then st1.(effects := st1.effects + [SetWidget(if w.keys == [] then None else Some(w.keys[0]))])
        else st1
  }

  // ---------------------------------------------------------------------
  // Properties of the handlers

  /** Once a turn has completed, nothing but the user's next message
      reopens it: further final messages and `is_done` frames leave the
      cache alone and the latch set. */
  lemma LatchHolds(st: SocketState, inbox: string, enabled: bool, auth: Option<Auth>,
                   incoming: Incoming, now: int, nowIso: string)
    requires st.hasStreamCompleted
    requires !(auth.Some? && incoming.Received? && IsUserMessage(incoming.frame, auth.value))
    ensures var r := FrameHandled(st, inbox, enabled, auth, incoming, now, nowIso);
      r.hasStreamCompleted && r.cache == st.cache
  {
  }

  /** The user's echoed message reopens the turn: latch cleared, buffers
      emptied, a fresh streaming entry, and the cache untouched. */
  lemma UserMessageStartsTurn(st: SocketState, inbox: string, auth: Auth, f: WsFrame, now: int, nowIso: string)
    requires f.inbox == inbox && IsUserMessage(f, auth)
    ensures var r := FrameHandled(st, inbox, true, Some(auth), Received(f), now, nowIso);
      && !r.hasStreamCompleted && r.tokenBuffer == "" && r.reasoningBuffer == ""
      && StreamingContentOf(r.store, inbox) == Some(FreshEntry)
      && r.cache == st.cache
  {
  }

  /** Both hooks read the one shared socket, so a widget frame for the
      inbox also reaches the message handler and clears its stream-support
      flag; a final assistant message arriving next is not applied to the
      cache but only triggers a refetch. */
  lemma {:induction false} WidgetFrameDisablesFinalisation(st: SocketState, inbox: string, auth: Auth,
                                         w: WsFrame, a: WsFrame, now: int, nowIso: string)
    requires w.inbox == inbox && w.messageType == WidgetType
    requires a.inbox == inbox && IsAssistantMessage(a, auth)
    ensures var r1 := FrameHandled(st, inbox, true, Some(auth), Received(w), now, nowIso);
      && !r1.isStreamSupported
      && var r2 := FrameHandled(r1, inbox, true, Some(auth), Received(a), now, nowIso);
      && r2.cache == st.cache
      && r2.effects == st.effects + [InvalidateConversation]
  {
    assert !IsShinkaiMessage(w);
    var r1 := FrameHandled(st, inbox, true, Some(auth), Received(w), now, nowIso);
    assert r1 == st.(isStreamSupported := false);
  }

  /** A flush with both buffers filled applies reasoning before content,
      so the reasoning it just extended is already marked complete. */
  lemma FlushAppliesReasoningFirst(st: SocketState, inbox: string, now: int)
    requires IsStreamingIn(st.store, inbox)
    requires st.tokenBuffer != "" && st.reasoningBuffer != ""
    ensures var r := Flushed(st, inbox, NoOptions, now);
      var before := StreamingContentOf(st.store, inbox).value;
      && StreamingContentOf(r.store, inbox).Some?
      && var after := StreamingContentOf(r.store, inbox).value;
      && after.content == before.content + st.tokenBuffer
      && after.reasoning.Some?
      && after.reasoning.value.text == (if before.reasoning.Some? then before.reasoning.value.text else "") + st.reasoningBuffer
      && after.reasoning.value.status == CompleteUnknown
  {
    var s1 := ReasoningAppended(st.store, inbox, st.reasoningBuffer, now);
    assert IsStreamingIn(s1, inbox);
  }

  /** A timer firing keeps the flag set only while a timer is pending. */
  lemma TickKeepsFlushInvariant(st: SocketState, inbox: string, now: int)
    requires FlushInvariant(st)
    ensures FlushInvariant(Ticked(st, inbox, now))
  {
  }

  /** Two flush timers can be pending at once: a token schedules one, an
      `is_done` token finalises and clears the flag while that timer is
      still pending, and the next token schedules a second. */
  lemma SecondTimerAfterDone(st: SocketState, inbox: string, token: WsFrame, done: WsFrame, next: WsFrame, now: int)
    requires !st.flushScheduled && st.pendingFlushes == 0 && !st.hasStreamCompleted
    requires token.metadata.None? && next.metadata.None?
    requires done.metadata.Some? && done.metadata.value.isDone
    ensures var s1 := StreamFrameHandled(st, inbox, token, now);
      var s2 := StreamFrameHandled(s1, inbox, done, now);
      var s3 := StreamFrameHandled(s2, inbox, next, now);
      && s1.pendingFlushes == 1 && s1.flushScheduled
      && s2.pendingFlushes == 1 && !s2.flushScheduled
      && s3.pendingFlushes == 2 && s3.flushScheduled
  {
  }

  // ---------------------------------------------------------------------
  // The hooks as objects

  /** The conversation's entry in the query client. */
  class QueryCache {
    var data: Option<Pages>

    constructor (data: Option<Pages>)
      ensures this.data == data
    {
      this.data := data;
    }

    /** `queryClient.setQueryData(queryKey, updater)`. */
    method SetQueryData(updater: Option<Pages> -> Option<Pages>)
      modifies this
      ensures data == updater(old(data))
    {
      data := updater(data);
    }
  }

  /** `useWebSocketMessage` and `useWebSocketTools` for one inbox: the refs
      of the message hook, and the streaming store and query cache both
      hooks write. */
  class ChatSocket {
    const inbox: string
    const store: Store
    const cache: QueryCache
    var tokenBuffer: string
    var reasoningBuffer: string
    var flushScheduled: bool
    var pendingFlushes: nat
    var hasStreamCompleted: bool
    var isStreamSupported: bool
    var effects: seq<Effect>

    /** The store's invariant and `FlushInvariant` of the snapshot. */
    ghost predicate Valid()
      reads this, store
    {
      store.Valid() && (flushScheduled ==> pendingFlushes > 0)
    }

    function Snapshot(): SocketState
      reads this, store, cache
    {
      SocketState(tokenBuffer, reasoningBuffer, flushScheduled, pendingFlushes,
                  hasStreamCompleted, isStreamSupported, store.State(), cache.data, effects)
    }

    constructor (inbox: string, store: Store, cache: QueryCache)
      requires store.Valid()
      ensures Valid() && this.inbox == inbox && this.store == store && this.cache == cache
      ensures Snapshot() == SocketState("", "", false, 0, false, false, store.State(), cache.data, [])
    {
      this.inbox := inbox;
      this.store := store;
      this.cache := cache;
      tokenBuffer, reasoningBuffer := "", "";
      flushScheduled, pendingFlushes := false, 0;
      hasStreamCompleted, isStreamSupported := false, false;
      effects := [];
    }

    /** `flushTokenBuffer`. It may run while a fired timer has left the
        scheduled flag set, so it asks only for a valid store. */
    method FlushTokenBuffer(opts: FlushOptions, now: int)
      requires store.Valid()
      modifies this, store, cache
      ensures Valid() && Snapshot() == Flushed(old(Snapshot()), inbox, opts, now)
    {
      flushScheduled := false;
      if tokenBuffer == "" && reasoningBuffer == "" && !opts.markComplete {
        return;
      }
      ApplyBuffers(now);
      if opts.markComplete {
        Finalize(opts, now);
      }
    }

    /** Empties the reasoning buffer, then the token buffer, into the store. */
    method ApplyBuffers(now: int)
      requires store.Valid()
      modifies this, store
      ensures store.Valid() && flushScheduled == old(flushScheduled) && pendingFlushes == old(pendingFlushes)
      ensures Snapshot() == old(Snapshot()).(store := BuffersApplied(old(store.State()), inbox, old(reasoningBuffer), old(tokenBuffer), now),
                                             tokenBuffer := "", reasoningBuffer := "")
    {
      if reasoningBuffer != "" {
        store.AppendReasoning(inbox, reasoningBuffer, now);
      }
      if tokenBuffer != "" {
        store.AppendContent(inbox, tokenBuffer, now);
      }
      reasoningBuffer, tokenBuffer := "", "";
    }

    /** Rewrites the cached placeholder from the streamed entry and ends the
        entry's stream. */
    method Finalize(opts: FlushOptions, now: int)
      requires store.Valid()
      modifies this, store, cache
      ensures store.Valid() && flushScheduled == old(flushScheduled) && pendingFlushes == old(pendingFlushes)
      ensures Snapshot() == Finalized(old(Snapshot()), inbox, opts, now)
    {
      var v := FinalValuesOf(opts, Get(store.streams, inbox));
      cache.SetQueryData(pages => FinalizedCache(pages, opts, v));
      store.EndStreaming(inbox, now);
      if |v.toolCalls| > 0 {
        effects := effects + [InvalidateConversationLater];
      }
    }

    /** The frame effect of the message hook. */
    method OnFrame(enabled: bool, auth: Option<Auth>, incoming: Incoming, now: int, nowIso: string)
      requires Valid()
      modifies this, store, cache
      ensures Valid() && Snapshot() == FrameHandled(old(Snapshot()), inbox, enabled, auth, incoming, now, nowIso)
    {
      if !enabled || auth.None? || incoming.Garbled? {
        return;
      }
      var f := incoming.frame;
      if f.inbox != inbox {
        return;
      }
      if IsShinkaiMessage(f) && f.payload.PayloadUnparseable? {
        return;
      }
      if IsUserMessage(f, auth.value) {
        OnUserMessage();
        return;
      }
      if IsAssistantMessage(f, auth.value) {
        OnAssistantMessage(f.payload.msg, now, nowIso);
        return;
      }
      isStreamSupported := false;
      if f.messageType != StreamType {
        return;
      }
      isStreamSupported := true;
      OnStreamFrame(f, now);
    }

    /** The user's own message: the buffers are cleared and a new turn
        starts streaming. */
    method OnUserMessage()
      requires Valid()
      modifies this, store
      ensures Valid() && Snapshot() == UserTurnStarted(old(Snapshot()), inbox)
    {
      store.StartStreaming(inbox);
      hasStreamCompleted, tokenBuffer, reasoningBuffer := false, "", "";
    }

    method OnAssistantMessage(msg: ShinkaiMsg, now: int, nowIso: string)
      requires Valid()
      modifies this, store, cache
      ensures Valid() && Snapshot() == AssistantMessageHandled(old(Snapshot()), inbox, msg, now, nowIso)
    {
      if !isStreamSupported {
        effects := effects + [InvalidateConversation];
        return;
      }
      isStreamSupported := false;
      if hasStreamCompleted {
        return;
      }
      if msg.rawContent.Some? {
        FlushTokenBuffer(FinalOptions(msg, msg.rawContent.value, nowIso), now);
      } else {
        FlushTokenBuffer(CompleteOnly, now);
      }
      hasStreamCompleted := true;
    }

    method OnStreamFrame(f: WsFrame, now: int)
      requires Valid()
      modifies this, store, cache
      ensures Valid() && Snapshot() == StreamFrameHandled(old(Snapshot()), inbox, f, now)
    {
      BufferToken(f);
      if f.metadata.Some? && f.metadata.value.isDone && !hasStreamCompleted {
        hasStreamCompleted := true;
        FlushTokenBuffer(CompleteOnly.(finalMessageId := f.metadata.value.id), now);
        return;
      }
      if !flushScheduled {
        flushScheduled := true;
        pendingFlushes := pendingFlushes + 1;
      }
    }

    method BufferToken(f: WsFrame)
      requires Valid()
      modifies this, store
      ensures Valid() && Snapshot() == TokenBuffered(old(Snapshot()), inbox, f)
    {
      ghost var st := Snapshot();
      EnsureStreaming();
      ghost var store1 := store.State();
      assert store1 == if IsStreamingIn(st.store, inbox) then st.store else Started(st.store, inbox);
      if f.metadata.Some? && f.metadata.value.isReasoning {
        reasoningBuffer := reasoningBuffer + f.message;
        assert Snapshot() == st.(store := store1, reasoningBuffer := st.reasoningBuffer + f.message);
      } else {
        tokenBuffer := tokenBuffer + f.message;
        assert Snapshot() == st.(store := store1, tokenBuffer := st.tokenBuffer + f.message);
      }
    }

    /** Starts a turn unless the inbox is already streaming. */
    method EnsureStreaming()
      requires store.Valid()
      modifies store
      ensures store.Valid()
      ensures store.State() == if IsStreamingIn(old(store.State()), inbox) then old(store.State()) else Started(old(store.State()), inbox)
    {
      var current := Get(store.streams, inbox);
      if current.None? || !current.value.isStreaming {
        store.StartStreaming(inbox);
      }
    }

    /** A 50 ms flush timer fires. */
    method Tick(now: int)
      requires Valid()
      modifies this, store, cache
      ensures Valid() && Snapshot() == Ticked(old(Snapshot()), inbox, now)
    {
      if pendingFlushes == 0 {
        return;
      }
      pendingFlushes := pendingFlushes - 1;
      FlushTokenBuffer(NoOptions, now);
    }

    /** The frame effect of the tools hook. */
    method OnToolFrame(enabled: bool, incoming: Incoming)
      requires Valid()
      modifies this, store, cache
      ensures Valid() && Snapshot() == ToolFrameHandled(old(Snapshot()), inbox, enabled, incoming)
    {
      if !enabled || incoming.Garbled? || incoming.frame.inbox != inbox {
        return;
      }
      var f := incoming.frame;
      if f.messageType != WidgetType || f.widget.None? {
        return;
      }
      var w := f.widget.value;
      if w.toolRequest.Some? {
        ApplyToolRequest(w.toolRequest.value);
      }
      if w.hasPaymentRequest {
        effects := effects + [SetWidget(if w.keys == [] then None else Some(w.keys[0]))];
      }
    }

    /** A tool request goes to the streaming entry, or to the cache when
        the inbox is not streaming. */
    method ApplyToolRequest(t: ToolRequest)
      requires Valid()
      modifies store, cache
      ensures Valid() && Snapshot() == ToolRequestApplied(old(Snapshot()), inbox, t)
    {
      if IsStreamingIn(store.State(), inbox) {
        store.UpdateToolCall(inbox, ToolCallFromRequest(t), t.index);
      } else {
        cache.SetQueryData(pages => ToolFallbackCache(pages, t));
      }
    }
  }

  // ---------------------------------------------------------------------
  // Subscriptions

  datatype Topic = InboxTopic | WidgetTopic

  /** A subscription request sent on the socket. */
  datatype SubscriptionMessage = Subscribe(topic: Topic, inbox: string) | Unsubscribe(topic: Topic, inbox: string)

  /** The subscribe/unsubscribe effect of one hook. React runs an effect's
      cleanup before running the effect again, which `cleanupFor` tracks:
      the inbox whose cleanup is registered. */
  class Subscription {
    const topic: Topic
    var previousInboxId: Option<string>
    var cleanupFor: Option<string>
    var sent: seq<SubscriptionMessage>

    ghost predicate Valid()
      reads this
    {
      previousInboxId == cleanupFor
    }

    constructor (topic: Topic)
      ensures Valid() && this.topic == topic && cleanupFor == None && sent == []
    {
      this.topic := topic;
      previousInboxId, cleanupFor := None, None;
      sent := [];
    }

    /** The effect body. The unsubscribe of a different previous inbox never
        fires: the cleanup has always reset the previous id by then, so the
        effect sends exactly one subscribe, or nothing when disabled or
        without an API key. */
    method Setup(enabled: bool, auth: Option<Auth>, inbox: string)
      requires Valid() && cleanupFor == None
      modifies this
      ensures Valid()
      ensures !enabled || auth.None? || auth.value.apiKey == "" ==> sent == old(sent) && cleanupFor == None
      ensures enabled && auth.Some? && auth.value.apiKey != "" ==>
                sent == old(sent) + [Subscribe(topic, inbox)] && cleanupFor == Some(inbox)
    {
      if !enabled || auth.None? || auth.value.apiKey == "" {
        return;
      }
      match previousInboxId {
        case Some(previous) =>
          // The unsubscribe of a recorded, different previous inbox: dead,
          // since the cleanup has cleared the record before every rerun.
          assert false;
        case None =>
      }
      sent := sent + [Subscribe(topic, inbox)];
      previousInboxId := Some(inbox);
      cleanupFor := Some(inbox);
    }

    /** The registered cleanup: unsubscribe the inbox it was set up for. */
    method Cleanup()
      requires Valid() && cleanupFor.Some?
      modifies this
      ensures Valid() && cleanupFor == None
      ensures sent == old(sent) + [Unsubscribe(topic, old(cleanupFor).value)]
    {
      sent := sent + [Unsubscribe(topic, cleanupFor.value)];
      previousInboxId := None;
      cleanupFor := None;
    }
  }
}
