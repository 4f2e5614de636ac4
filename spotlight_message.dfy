/** The spotlight window's message view: the text shown for an assistant
    message, the configuration deep link it may carry, the tool and
    reasoning labels, the status hints and the re-render comparator. */
module SpotlightMessage {
  import opened Wrappers
  import opened Text
  import opened OrderedMap
  import opened ChatTypes

  // ---------------------------------------------------------------------
  // Error extraction

  /** What `JSON.parse` makes of a text: no JSON at all, a JSON value that
      is not an object (`in` on it throws or finds nothing), or an object,
      each member's value given by its JSON text. */
  datatype ParsedJson = NotJson | NotAnObject | JsonObject(members: seq<(string, string)>)

  /** The shown value: a member of the parsed object, or the text itself. */
  datatype Extracted = MemberValue(json: string) | ContentText(text: string)

  /** `extractErrorPropertyOrContent`: the named member when the content
      parses to an object holding it, else the content unchanged. */
  function ExtractErrorPropertyOrContent(content: string, parsed: ParsedJson, property: string): (r: Extracted)
    ensures r.MemberValue? <==> parsed.JsonObject? && HasKey(parsed.members, property)
    ensures r.MemberValue? ==> Get(parsed.members, property) == Some(r.json)
    ensures r.ContentText? ==> r.text == content
  {
    if parsed.JsonObject? && Get(parsed.members, property).Some? then MemberValue(Get(parsed.members, property).value)
    else ContentText(content)
  }

  // ---------------------------------------------------------------------
  // Configuration deep link

  const DeepLinkPrefix := "shinkai://config?tool="

  /** The regex can match at `i`: the prefix, then a non-space character. */
  predicate DeepLinkAt(s: string, i: int) {
    OccursAt(s, DeepLinkPrefix, i) && i + |DeepLinkPrefix| < |s| && !IsSpace(s[i + |DeepLinkPrefix|])
  }

  /** The length of the run of non-space characters starting at `j`. */
  function NonSpaceRun(s: string, j: nat): (n: nat)
    requires j <= |s|
    ensures j + n <= |s|
    ensures forall k :: j <= k < j + n ==> !IsSpace(s[k])
    ensures j + n == |s| || IsSpace(s[j + n])
    decreases |s| - j
  {
    if j == |s| || IsSpace(s[j]) then 0 else 1 + NonSpaceRun(s, j + 1)
  }

  /** The leftmost position at or after `from` where the regex matches. */
  function FirstDeepLink(s: string, from: nat): (r: Option<nat>)
    ensures r.Some? ==> from <= r.value && DeepLinkAt(s, r.value)
    ensures r.Some? ==> forall j :: from <= j < r.value ==> !DeepLinkAt(s, j)
    ensures r.None? ==> forall j :: from <= j ==> !DeepLinkAt(s, j)
    decreases |s| - from
  {
    if from + |DeepLinkPrefix| >= |s| then None
    else if DeepLinkAt(s, from) then Some(from)
    else FirstDeepLink(s, from + 1)
  }

  /** `configDeepLinkMatcher`: the captured tool key of the leftmost
      match, the whole run of non-space characters after the prefix. */
  function ConfigDeepLink(content: string): (r: Option<string>)
    ensures r.None? <==> forall i :: !DeepLinkAt(content, i)
    ensures r.Some? ==>
      exists i :: DeepLinkAt(content, i) && (forall j :: 0 <= j < i ==> !DeepLinkAt(content, j)) &&
                  IsDeepLinkKey(content, i + |DeepLinkPrefix|, r.value)
  {
    match FirstDeepLink(content, 0)
    case None =>
      assert forall i :: !DeepLinkAt(content, i) by {
        forall i ensures !DeepLinkAt(content, i) {
          if i >= 0 {
            assert !DeepLinkAt(content, i);
          }
        }
      }
      None
    case Some(i) =>
      var j := i + |DeepLinkPrefix|;
      var key := content[j..j + NonSpaceRun(content, j)];
      assert IsDeepLinkKey(content, j, key);
      Some(key)
  }

  /** `key` is a non-empty run of non-space characters at `j` that is not
      followed by another non-space character. */
  ghost predicate IsDeepLinkKey(s: string, j: int, key: string) {
    0 <= j && j + |key| <= |s| && s[j..j + |key|] == key && |key| > 0 &&
    (forall k :: 0 <= k < |key| ==> !IsSpace(key[k])) &&
    (j + |key| == |s| || IsSpace(s[j + |key|]))
  }

  /** The key ends at the first white space: a link followed by a space
      and more text yields just the key. */
  lemma DeepLinkStopsAtSpace(key: string, rest: string)
    requires |key| > 0 && forall k :: 0 <= k < |key| ==> !IsSpace(key[k])
    ensures ConfigDeepLink(DeepLinkPrefix + key + " " + rest) == Some(key)
  {
    var s := DeepLinkPrefix + key + " " + rest;
    var p := |DeepLinkPrefix|;
    assert s[0..p] == DeepLinkPrefix;
    assert s[p] == key[0];
    assert DeepLinkAt(s, 0);
    assert FirstDeepLink(s, 0) == Some(0);
    assert s[p..p + |key|] == key;
    RunLength(s, p, |key|);
  }

  lemma {:induction false} RunLength(s: string, j: nat, n: nat)
    requires j + n < |s| && IsSpace(s[j + n])
    requires forall k :: j <= k < j + n ==> !IsSpace(s[k])
    ensures NonSpaceRun(s, j) == n
    decreases n
  {
    if n > 0 {
      RunLength(s, j + 1, n - 1);
    }
  }

  // ---------------------------------------------------------------------
  // The shown assistant text

  const ThinkOpen := "<think>"
  const ThinkClose := "</think>"

  /** `replace(/<think>[\s\S]*?<\/think>/g, '')`: scanning left to right,
      an opening tag with a closing tag somewhere after it is removed up to
      and including the first such closing tag; scanning resumes after it. */
  function StripThinkBlocks(s: string): (r: string)
    ensures |r| <= |s|
    decreases |s|
  {
    if s == [] then []
    else if ThinkOpen <= s then
      match IndexOf(s[|ThinkOpen|..], ThinkClose)
      case Some(k) => StripThinkBlocks(s[|ThinkOpen| + k + |ThinkClose|..])
      case None => [s[0]] + StripThinkBlocks(s[1..])
    else [s[0]] + StripThinkBlocks(s[1..])
  }

  /** `replace('<think>', '')`: the first occurrence only. */
  function RemoveFirst(s: string, q: string): (r: string)
    ensures IndexOf(s, q).None? ==> r == s
    ensures IndexOf(s, q).Some? ==> |r| + |q| == |s|
  {
    match IndexOf(s, q)
    case None => s
    case Some(i) => s[..i] + s[i + |q|..]
  }

  /** The text handed to the error extraction. */
  function ShownText(content: string): string {
    RemoveFirst(StripThinkBlocks(content), ThinkOpen)
  }

  /** Text that opens no think block is left alone by the global replace. */
  lemma {:induction false} NoTagsUnchanged(s: string)
    requires '<' !in s
    ensures StripThinkBlocks(s) == s
    decreases |s|
  {
    if s != [] {
      assert s[0] != ThinkOpen[0];
      NoTagsUnchanged(s[1..]);
      assert s == [s[0]] + s[1..];
    }
  }

  /** A leading block is dropped whole, up to the first closing tag. */
  lemma LeadingBlockDropped(body: string, rest: string)
    requires IndexOf(body + ThinkClose, ThinkClose) == Some(|body|)
    ensures StripThinkBlocks(ThinkOpen + body + ThinkClose + rest) == StripThinkBlocks(rest)
  {
    var s := ThinkOpen + body + ThinkClose + rest;
    assert s[|ThinkOpen|..] == (body + ThinkClose) + rest;
    IndexOfExtended(body + ThinkClose, rest, ThinkClose);
    assert s[|ThinkOpen| + |body| + |ThinkClose|..] == rest;
  }

  /** One step of the scan at a character that opens no tag. */
  lemma PlainStep(s: string)
    requires s != [] && s[0] != '<'
    ensures StripThinkBlocks(s) == [s[0]] + StripThinkBlocks(s[1..])
  {
    assert s[0] != ThinkOpen[0];
  }

  /** Text without a '<' before the rest is copied as it is, and the
      rest is stripped on its own. */
  lemma {:induction false} PlainPrefixKept(p: string, rest: string)
    requires '<' !in p
    ensures StripThinkBlocks(p + rest) == p + StripThinkBlocks(rest)
    decreases |p|
  {
    if p != [] {
      var s := p + rest;
      assert s[0] == p[0];
      PlainStep(s);
      assert s[1..] == p[1..] + rest;
      PlainPrefixKept(p[1..], rest);
      assert p == [p[0]] + p[1..];
    } else {
      assert p + rest == rest;
    }
  }

  /** A block after plain text is dropped whole, up to the first closing
      tag, and the text before it is kept. */
  lemma BlockDropped(before: string, body: string, rest: string)
    requires '<' !in before
    requires IndexOf(body + ThinkClose, ThinkClose) == Some(|body|)
    ensures StripThinkBlocks(before + ThinkOpen + body + ThinkClose + rest) == before + StripThinkBlocks(rest)
  {
    assert before + ThinkOpen + body + ThinkClose + rest == before + (ThinkOpen + body + ThinkClose + rest);
    PlainPrefixKept(before, ThinkOpen + body + ThinkClose + rest);
    LeadingBlockDropped(body, rest);
  }

  /** `BlockDropped` for a text known to be laid out that way. */
  lemma BlockDroppedIn(s: string, before: string, body: string, rest: string)
    requires s == before + ThinkOpen + body + ThinkClose + rest
    requires '<' !in before
    requires IndexOf(body + ThinkClose, ThinkClose) == Some(|body|)
    ensures StripThinkBlocks(s) == before + StripThinkBlocks(rest)
  {
    BlockDropped(before, body, rest);
  }

  /** Plain text and think blocks taking turns: each pair is a stretch of
      plain text followed by the body of a block. */
  function Interleaved(parts: seq<(string, string)>): string {
    if parts == [] then []
    else parts[0].0 + ThinkOpen + parts[0].1 + ThinkClose + Interleaved(parts[1..])
  }

  /** The plain stretches of `parts`, in order. */
  function PlainParts(parts: seq<(string, string)>): string {
    if parts == [] then [] else parts[0].0 + PlainParts(parts[1..])
  }

  /** A stretch of plain text without '<', then a block body that holds
      no closing tag before its end. */
  predicate PlainThenBlock(part: (string, string)) {
    '<' !in part.0 && IndexOf(part.1 + ThinkClose, ThinkClose) == Some(|part.1|)
  }

  /** Every block is dropped: when each stretch is plain and each body
      runs to its own closing tag, stripping leaves exactly the plain
      stretches and the stripped tail. */
  lemma {:induction false} EveryBlockDropped(parts: seq<(string, string)>, tail: string)
    requires forall i :: 0 <= i < |parts| ==> PlainThenBlock(parts[i])
    ensures StripThinkBlocks(Interleaved(parts) + tail) == PlainParts(parts) + StripThinkBlocks(tail)
    decreases |parts|
  {
    if parts != [] {
      assert forall i :: 0 <= i < |parts| - 1 ==> parts[1..][i] == parts[i + 1];
      EveryBlockDropped(parts[1..], tail);
      FirstBlockDropped(parts, tail);
      InterleavedStep(parts, tail);
      Regroup(parts[0].0, PlainParts(parts[1..]), StripThinkBlocks(tail),
              StripThinkBlocks(Interleaved(parts) + tail), StripThinkBlocks(Interleaved(parts[1..]) + tail));
    } else {
      assert Interleaved(parts) + tail == tail;
    }
  }

  /** The step of `EveryBlockDropped`: the first stretch is kept and its
      block dropped. */
  lemma FirstBlockDropped(parts: seq<(string, string)>, tail: string)
    requires parts != [] && PlainThenBlock(parts[0])
    ensures StripThinkBlocks(Interleaved(parts) + tail) == parts[0].0 + StripThinkBlocks(Interleaved(parts[1..]) + tail)
  {
    InterleavedStep(parts, tail);
    BlockDroppedIn(Interleaved(parts) + tail, parts[0].0, parts[0].1, Interleaved(parts[1..]) + tail);
  }

  lemma Regroup(a: string, b: string, c: string, x: string, y: string)
    requires x == a + y && y == b + c
    ensures x == (a + b) + c
  {
  }

  lemma InterleavedStep(parts: seq<(string, string)>, tail: string)
    requires parts != []
    ensures Interleaved(parts) + tail ==
      parts[0].0 + ThinkOpen + parts[0].1 + ThinkClose + (Interleaved(parts[1..]) + tail)
    ensures PlainParts(parts) == parts[0].0 + PlainParts(parts[1..])
  {
  }

  /** A text without `q`'s first character holds no occurrence of `q`. */
  lemma NoOccurrence(s: string, q: string)
    requires q != [] && q[0] !in s
    ensures IndexOf(s, q).None?
  {
    forall j | 0 <= j && j + |q| <= |s| ensures !OccursAt(s, q, j) {
      assert s[j..j + |q|][0] == s[j];
    }
  }

  /** Plain text before a block is kept, the block dropped, and the answer
      after it kept: reasoning-then-answer content shows the text before the
      block followed by the answer (just the answer when nothing precedes
      the block). */
  lemma ReasoningThenAnswer(before: string, body: string, answer: string)
    requires '<' !in before
    requires IndexOf(body + ThinkClose, ThinkClose) == Some(|body|)
    requires '<' !in answer
    ensures ShownText(before + ThinkOpen + body + ThinkClose + answer) == before + answer
  {
    BlockDropped(before, body, answer);
    NoTagsUnchanged(answer);
    assert '<' !in before + answer;
    NoOccurrence(before + answer, ThinkOpen);
  }

  /** An opening tag that is never closed survives the global replace and
      is then removed by the single replace; the reasoning after it shows. */
  lemma UnclosedThinkDropped(thought: string)
    requires '<' !in thought
    ensures ShownText(ThinkOpen + thought) == thought
  {
    var s := ThinkOpen + thought;
    assert s[|ThinkOpen|..] == thought;
    NoOccurrence(thought, ThinkClose);
    var tail := s[1..];
    assert '<' !in tail by {
      forall k | 0 <= k < |tail| ensures tail[k] != '<' {
        if k >= 6 {
          assert tail[k] == thought[k - 6];
        }
      }
    }
    NoTagsUnchanged(tail);
    assert StripThinkBlocks(s) == [s[0]] + tail == s;
    assert s[0..|ThinkOpen|] == ThinkOpen;
    assert IndexOf(s, ThinkOpen) == Some(0);
  }

  // ---------------------------------------------------------------------
  // Labels and hints

  /** The tool card's label. */
  function ToolLabel(status: ToolStatus): (r: string)
    ensures r == "Tool Used" <==> status == ToolComplete
    ensures r == "Incomplete" <==> status == ToolIncomplete
    ensures r == "Requires Action" <==> status == ToolRequiresAction
    ensures status == ToolPending || status == ToolRunning ==> r == "Processing Tool"
  {
    if status == ToolComplete then "Tool Used"
    else if status == ToolIncomplete then "Incomplete"
    else if status == ToolRequiresAction then "Requires Action"
    else "Processing Tool"
  }

  /** The reasoning block's header. */
  function ReasoningHeader(status: Option<TextStatus>): (r: string)
    ensures r == "Reasoning" <==> status.Some? && status.value.Complete?
    ensures r != "Reasoning" ==> r == "Thinking..."
  {
    if status.Some? && status.value.Complete? then "Reasoning" else "Thinking..."
  }

  predicate IsRunningTool(t: ToolCall) {
    t.status == ToolRunning
  }

  /** "Executing tools": an assistant message with no text yet and a tool
      still running. */
  predicate ShowsExecutingTools(m: Message) {
    m.role == Assistant && m.content == "" && exists i :: 0 <= i < |m.toolCalls| && IsRunningTool(m.toolCalls[i])
  }

  /** "Getting AI response": no text yet, and every one of at least one tool
      call has completed. */
  predicate ShowsGettingResponse(m: Message) {
    m.role == Assistant && m.content == "" && |m.toolCalls| > 0 &&
    forall i :: 0 <= i < |m.toolCalls| ==> m.toolCalls[i].status == ToolComplete
  }

  /** The two hints never show together. */
  lemma HintsExclusive(m: Message)
    ensures !(ShowsExecutingTools(m) && ShowsGettingResponse(m))
  {
    if ShowsExecutingTools(m) {
      var i :| 0 <= i < |m.toolCalls| && IsRunningTool(m.toolCalls[i]);
      assert m.toolCalls[i].status != ToolComplete;
    }
  }

  /** Both hints disappear as soon as the answer has text. */
  lemma HintsNeedEmptyContent(m: Message)
    requires m.content != ""
    ensures !ShowsExecutingTools(m) && !ShowsGettingResponse(m)
  {
  }

  // ---------------------------------------------------------------------
  // Re-render comparator

  datatype MessageProps = MessageProps(messageId: string, message: Message, isPending: bool)

  /** The memo comparator: equal ids, text, pending flag, deep-equal tool
      calls and the same provider agent. */
  predicate SameRendering(prev: MessageProps, next: MessageProps) {
    && prev.messageId == next.messageId
    && prev.message.content == next.message.content
    && prev.isPending == next.isPending
    && prev.message.toolCalls == next.message.toolCalls
    && prev.message.providerAgentId == next.message.providerAgentId
  }

  /** The comparator is an equivalence. */
  lemma SameRenderingEquivalence(a: MessageProps, b: MessageProps, c: MessageProps)
    ensures SameRendering(a, a)
    ensures SameRendering(a, b) ==> SameRendering(b, a)
    ensures SameRendering(a, b) && SameRendering(b, c) ==> SameRendering(a, c)
  {
  }

  /** A message whose status or reasoning alone changes is not re-rendered:
      those fields are outside the comparator. */
  lemma StatusChangeSkipsRender(p: MessageProps, status: TextStatus, reasoning: Option<Reasoning>)
    ensures SameRendering(p, p.(message := p.message.(status := status, reasoning := reasoning)))
  {
  }
}
