/** The per-inbox streaming store: a table from inbox id to the assistant
    turn being streamed, plus an insertion-ordered ledger of the reasoning
    durations of the last few inboxes. Each action is a pure transition of
    `StoreState`; the class `Store` runs them in place. Time is the
    parameter `now`, in milliseconds. */
module StreamingStore {
  import opened Wrappers
  import opened ChatTypes
  import opened OrderedMap

  /** The in-flight assistant turn of one inbox. */
  datatype StreamingContent = StreamingContent(
    content: string,
    reasoning: Option<Reasoning>,
    toolCalls: seq<ToolCall>,
    isStreaming: bool,
    reasoningStartTime: Option<int>,
    reasoningDuration: int)

  /** The entry `startStreaming` installs. */
  const FreshEntry := StreamingContent("", None, [], true, None, 0)

  /** Size of the reasoning-duration ledger. */
  const MaxReasoningDurations := 5

  /** Both tables are insertion-ordered maps (JS `Map`). */
  datatype StoreState = StoreState(
    streams: seq<(string, StreamingContent)>,
    durations: seq<(string, int)>)

  const EmptyState := StoreState([], [])

  /** What every reachable state satisfies: keys are unique and the ledger
      holds at most `MaxReasoningDurations` inboxes. */
  predicate ValidState(s: StoreState) {
    UniqueKeys(s.streams) && UniqueKeys(s.durations) && |s.durations| <= MaxReasoningDurations
  }

  // ---------------------------------------------------------------------
  // Reasoning duration

  /** `Math.round(ms / 1000)`: the nearest whole number of seconds, halves
      rounded up. */
  function RoundedSeconds(ms: int): (r: int)
    ensures 1000 * r - 500 <= ms < 1000 * r + 500
  {
    (ms + 500) / 1000
  }

  /** `calculateReasoningDuration`. A start time of 0 counts as absent,
      as it is falsy in the source. */
  function ReasoningDuration(c: StreamingContent, now: int): (r: int)
    ensures c.reasoningDuration > 0 ==> r == c.reasoningDuration
    ensures c.reasoningDuration <= 0 && c.reasoningStartTime in {None, Some(0)} ==> r == 0
    ensures c.reasoningDuration <= 0 && c.reasoningStartTime.Some? && c.reasoningStartTime.value != 0 ==>
      1000 * r - 500 <= now - c.reasoningStartTime.value < 1000 * r + 500
  {
    if c.reasoningDuration > 0 then c.reasoningDuration
    else if c.reasoningStartTime.None? || c.reasoningStartTime.value == 0 then 0
    else RoundedSeconds(now - c.reasoningStartTime.value)
  }

  // ---------------------------------------------------------------------
  // Selectors

  /** `getStreamingContent` and `useStreamingContent`. */
  function StreamingContentOf(s: StoreState, id: string): Option<StreamingContent> {
    Get(s.streams, id)
  }

  /** `useIsStreaming`: `streams.get(id)?.isStreaming ?? false`. */
  predicate IsStreamingIn(s: StoreState, id: string) {
    StreamingContentOf(s, id).Some? && StreamingContentOf(s, id).value.isStreaming
  }

  /** `useReasoningDuration`: 0 for the empty inbox id and for an inbox the
      ledger does not hold, the saved duration otherwise. */
  function ReasoningDurationOf(s: StoreState, id: string): (r: int)
    ensures id == "" ==> r == 0
    ensures id != "" && HasKey(s.durations, id) ==> Get(s.durations, id) == Some(r)
    ensures !HasKey(s.durations, id) ==> r == 0
  {
    if id == "" then 0
    else match Get(s.durations, id) {
      case Some(d) => d
      case None => 0
    }
  }

  /** No inbox other than `id` sees a different streaming entry. */
  ghost predicate OtherStreamsUnchanged(s: StoreState, r: StoreState, id: string) {
    forall k :: k != id ==> Get(r.streams, k) == Get(s.streams, k)
  }

  // ---------------------------------------------------------------------
  // Transitions

  /** `s` with the existing entry of `id` replaced by `c`: the entry keeps
      its position and every other inbox is untouched. */
  function Replaced(s: StoreState, id: string, c: StreamingContent): (r: StoreState)
    requires HasKey(s.streams, id)
    ensures StreamingContentOf(r, id) == Some(c)
    ensures OtherStreamsUnchanged(s, r, id) && r.durations == s.durations
    ensures Keys(r.streams) == Keys(s.streams)
  {
    SetKeepsKeys(s.streams, id, c);
    s.(streams := Set(s.streams, id, c))
  }

  /** `startStreaming`: a fresh entry for `id`, and `id`'s saved duration
      forgotten; every other inbox is untouched in both tables. */
  function Started(s: StoreState, id: string): (r: StoreState)
    ensures StreamingContentOf(r, id) == Some(FreshEntry)
    ensures OtherStreamsUnchanged(s, r, id)
    ensures Get(r.durations, id) == None
    ensures forall k :: k != id ==> Get(r.durations, k) == Get(s.durations, k)
  {
    StoreState(Set(s.streams, id, FreshEntry), Delete(s.durations, id))
  }

  /** `appendContent`: a no-op unless `id` is streaming; otherwise the text
      grows by `text`, a present reasoning is marked complete, and the
      reasoning duration is fixed. */
  function ContentAppended(s: StoreState, id: string, text: string, now: int): (r: StoreState)
    ensures !IsStreamingIn(s, id) ==> r == s
    ensures IsStreamingIn(s, id) ==>
      var c := StreamingContentOf(s, id).value;
      StreamingContentOf(r, id).Some? &&
      var n := StreamingContentOf(r, id).value;
      && n.content == c.content + text
      && n.reasoning.Some? == c.reasoning.Some?
      && (c.reasoning.Some? ==> n.reasoning.value == Reasoning(c.reasoning.value.text, CompleteUnknown))
      && n.toolCalls == c.toolCalls
      && n.isStreaming
      && n.reasoningStartTime == c.reasoningStartTime
      && n.reasoningDuration == ReasoningDuration(c, now)
    ensures OtherStreamsUnchanged(s, r, id) && r.durations == s.durations
    ensures Keys(r.streams) == Keys(s.streams)
  {
    if IsStreamingIn(s, id) then
      var c := StreamingContentOf(s, id).value;
      var reasoning := if c.reasoning.Some? then Some(c.reasoning.value.(status := CompleteUnknown)) else None;
      Replaced(s, id, c.(content := c.content + text, reasoning := reasoning,
                                          reasoningDuration := ReasoningDuration(c, now)))
    else s
  }

  /** `appendReasoning`: a no-op unless `id` is streaming; otherwise the
      reasoning text grows by `text` and is running, and the start time is
      set to `now` only if there was none. */
  function ReasoningAppended(s: StoreState, id: string, text: string, now: int): (r: StoreState)
    ensures !IsStreamingIn(s, id) ==> r == s
    ensures IsStreamingIn(s, id) ==>
      var c := StreamingContentOf(s, id).value;
      StreamingContentOf(r, id).Some? &&
      var n := StreamingContentOf(r, id).value;
      && n.reasoning.Some?
      && n.reasoning.value.text == (if c.reasoning.Some? then c.reasoning.value.text else "") + text
      && n.reasoning.value.status == Running
      && n.reasoningStartTime == (if c.reasoningStartTime.Some? then c.reasoningStartTime else Some(now))
      && n.content == c.content
      && n.toolCalls == c.toolCalls
      && n.isStreaming
      && n.reasoningDuration == c.reasoningDuration
    ensures OtherStreamsUnchanged(s, r, id) && r.durations == s.durations
    ensures Keys(r.streams) == Keys(s.streams)
  {
    if IsStreamingIn(s, id) then
      var c := StreamingContentOf(s, id).value;
      var current := c.reasoning.GetOr(Reasoning("", Running));
      var start := c.reasoningStartTime.OrElse(Some(now));
      Replaced(s, id, c.(reasoning := Some(Reasoning(current.text + text, Running)),
                                          reasoningStartTime := start))
    else s
  }

  /** `completeReasoning`: a no-op unless `id` is streaming with some
      reasoning; otherwise that reasoning is complete and the duration fixed. */
  function ReasoningCompleted(s: StoreState, id: string, now: int): (r: StoreState)
    ensures !IsStreamingIn(s, id) || StreamingContentOf(s, id).value.reasoning.None? ==> r == s
    ensures IsStreamingIn(s, id) && StreamingContentOf(s, id).value.reasoning.Some? ==>
      var c := StreamingContentOf(s, id).value;
      StreamingContentOf(r, id) == Some(c.(reasoning := Some(Reasoning(c.reasoning.value.text, CompleteUnknown)),
                                           reasoningDuration := ReasoningDuration(c, now)))
    ensures OtherStreamsUnchanged(s, r, id) && r.durations == s.durations
    ensures Keys(r.streams) == Keys(s.streams)
  {
    if IsStreamingIn(s, id) && StreamingContentOf(s, id).value.reasoning.Some? then
      var c := StreamingContentOf(s, id).value;
      Replaced(s, id, c.(reasoning := Some(c.reasoning.value.(status := CompleteUnknown)),
                                          reasoningDuration := ReasoningDuration(c, now)))
    else s
  }

  /** `{ ...current, ...patch }` for a tool-call patch: every field comes
      from the patch, except the generated files, which the patch leaves
      as they were when it carries none. */
  function MergeToolCall(current: ToolCall, patch: ToolCall): (r: ToolCall)
    ensures r.(generatedFiles := patch.generatedFiles) == patch
    ensures r.generatedFiles == if patch.generatedFiles.Some? then patch.generatedFiles else current.generatedFiles
  {
    patch.(generatedFiles := patch.generatedFiles.OrElse(current.generatedFiles))
  }

  /** The tool-call list after `updateToolCall`: the slot at `index` merged
      when it exists, otherwise the patch appended. */
  function ToolCallsUpdated(calls: seq<ToolCall>, patch: ToolCall, index: nat): (r: seq<ToolCall>)
    ensures index < |calls| ==> |r| == |calls| && r[index] == MergeToolCall(calls[index], patch)
    ensures index >= |calls| ==> r == calls + [patch]
    ensures forall j :: 0 <= j < |calls| && j != index ==> r[j] == calls[j]
  {
    if index < |calls| then calls[index := MergeToolCall(calls[index], patch)] else calls + [patch]
  }

  /** `updateToolCall`: a no-op when `id` has no entry (whether or not it
      is still streaming does not matter); otherwise only the tool calls
      of `id` change. */
  function ToolCallUpdated(s: StoreState, id: string, patch: ToolCall, index: nat): (r: StoreState)
    ensures !HasKey(s.streams, id) ==> r == s
    ensures HasKey(s.streams, id) ==>
      var c := StreamingContentOf(s, id).value;
      StreamingContentOf(r, id) == Some(c.(toolCalls := ToolCallsUpdated(c.toolCalls, patch, index)))
    ensures OtherStreamsUnchanged(s, r, id) && r.durations == s.durations
    ensures Keys(r.streams) == Keys(s.streams)
  {
    if HasKey(s.streams, id) then
      var c := StreamingContentOf(s, id).value;
      Replaced(s, id, c.(toolCalls := ToolCallsUpdated(c.toolCalls, patch, index)))
    else s
  }

  /** `endStreaming`: a no-op when `id` has no entry; otherwise the entry
      stops streaming and its duration is fixed, with content, reasoning
      and tool calls kept for the cached message to take over. */
  function StreamingEnded(s: StoreState, id: string, now: int): (r: StoreState)
    ensures !HasKey(s.streams, id) ==> r == s
    ensures HasKey(s.streams, id) ==>
      var c := StreamingContentOf(s, id).value;
      StreamingContentOf(r, id).Some? &&
      var n := StreamingContentOf(r, id).value;
      && !n.isStreaming
      && n.content == c.content
      && n.reasoning == c.reasoning
      && n.toolCalls == c.toolCalls
      && n.reasoningStartTime == c.reasoningStartTime
      && n.reasoningDuration == ReasoningDuration(c, now)
    ensures OtherStreamsUnchanged(s, r, id) && r.durations == s.durations
    ensures Keys(r.streams) == Keys(s.streams)
  {
    if HasKey(s.streams, id) then
      var c := StreamingContentOf(s, id).value;
      Replaced(s, id, c.(isStreaming := false, reasoningDuration := ReasoningDuration(c, now)))
    else s
  }

  /** `clearInbox`: the entry of `id` is gone; other entries and the
      duration ledger are untouched. */
  function InboxCleared(s: StoreState, id: string): (r: StoreState)
    ensures !HasKey(s.streams, id) ==> r == s
    ensures StreamingContentOf(r, id) == None
    ensures OtherStreamsUnchanged(s, r, id) && r.durations == s.durations
  {
    if !HasKey(s.streams, id) then s else s.(streams := Delete(s.streams, id))
  }

  /** The last `n` entries of a ledger (all of it when it is shorter). */
  function Newest(d: seq<(string, int)>, n: nat): (r: seq<(string, int)>)
    ensures |r| == if |d| < n then |d| else n
    ensures r == d[|d| - |r|..]
  {
    if |d| <= n then d else d[|d| - n..]
  }

  /** `saveReasoningDuration`: `id` moves to the newest position with the
      new duration, then the oldest entries beyond the cap are dropped. */
  function DurationSaved(d: seq<(string, int)>, id: string, duration: int): seq<(string, int)> {
    Newest(Delete(d, id) + [(id, duration)], MaxReasoningDurations)
  }

  /** Saving a duration for an inbox already in the ledger moves it to the
      newest place; the others keep the order in which they were saved, and
      the cap then drops the oldest of them. */
  lemma DurationSavedFillOrder(d: seq<(string, int)>, id: string, duration: int, p: nat)
    requires UniqueKeys(d) && p < |d| && d[p].0 == id
    ensures DurationSaved(d, id, duration) == Newest(d[..p] + d[p + 1..] + [(id, duration)], MaxReasoningDurations)
  {
    DeleteAt(d, p);
  }

  /** The ledger before the cap is applied has no duplicate keys. */
  lemma SavedUnique(d: seq<(string, int)>, id: string, duration: int)
    requires UniqueKeys(d)
    ensures UniqueKeys(Delete(d, id) + [(id, duration)])
  {
    var e := Delete(d, id);
    var full := e + [(id, duration)];
    forall i, j | 0 <= i < j < |full| ensures full[i].0 != full[j].0 {
      if j == |full| - 1 {
        assert full[i] == e[i];
        assert !HasKey(e, id);
      } else {
        assert full[i] == e[i] && full[j] == e[j];
      }
    }
  }

  /** Setting a key just deleted appends it, and keeps the keys unique. */
  lemma SetAfterDelete(d: seq<(string, int)>, id: string, duration: int)
    requires UniqueKeys(d)
    ensures Set(Delete(d, id), id, duration) == Delete(d, id) + [(id, duration)]
    ensures UniqueKeys(Delete(d, id) + [(id, duration)])
  {
    assert !HasKey(Delete(d, id), id);
    SavedUnique(d, id, duration);
  }

  /** The ledger stays duplicate-free and within the cap. */
  lemma DurationSavedValid(d: seq<(string, int)>, id: string, duration: int)
    requires UniqueKeys(d)
    ensures UniqueKeys(DurationSaved(d, id, duration))
    ensures |DurationSaved(d, id, duration)| <= MaxReasoningDurations
  {
    var full := Delete(d, id) + [(id, duration)];
    SavedUnique(d, id, duration);
    var r := DurationSaved(d, id, duration);
    assert r == full[|full| - |r|..];
    forall i, j | 0 <= i < j < |r| ensures r[i].0 != r[j].0 {
      assert r[i] == full[|full| - |r| + i] && r[j] == full[|full| - |r| + j];
    }
  }

  /** The saved duration is the newest entry and is what the ledger gives
      back for `id`. */
  lemma DurationSavedIsNewest(d: seq<(string, int)>, id: string, duration: int)
    requires UniqueKeys(d)
    ensures var r := DurationSaved(d, id, duration);
      && r != [] && r[|r| - 1] == (id, duration)
      && Get(r, id) == Some(duration)
  {
    var full := Delete(d, id) + [(id, duration)];
    var r := DurationSaved(d, id, duration);
    assert r == full[|full| - |r|..];
    assert r[|r| - 1] == (id, duration);
    DurationSavedValid(d, id, duration);
    GetAt(r, |r| - 1);
  }

  /** Every other inbox keeps its duration or loses it; it never gains one
      and never sees a different value. */
  lemma DurationSavedOthers(d: seq<(string, int)>, id: string, duration: int, k: string)
    requires UniqueKeys(d) && k != id
    ensures var r := DurationSaved(d, id, duration);
      Get(r, k) == Get(d, k) || Get(r, k) == None
  {
    var e := Delete(d, id);
    var full := e + [(id, duration)];
    var r := DurationSaved(d, id, duration);
    if Get(r, k).Some? {
      var v := Get(r, k).value;
      var i :| 0 <= i < |r| && r[i] == (k, v);
      var j := |full| - |r| + i;
      assert full[j] == r[i];
      assert j < |e| && e[j] == (k, v);
      assert (k, v) in d;
      var p :| 0 <= p < |d| && d[p] == (k, v);
      GetAt(d, p);
    }
  }

  /** Eviction is oldest first: if an inbox other than `id` survives a
      save, every inbox saved after it survives too. */
  lemma DurationSavedEvictsOldest(d: seq<(string, int)>, id: string, duration: int, i: nat, j: nat)
    requires UniqueKeys(d)
    requires i < j < |Delete(d, id)|
    requires HasKey(DurationSaved(d, id, duration), Delete(d, id)[i].0)
    ensures HasKey(DurationSaved(d, id, duration), Delete(d, id)[j].0)
  {
    var e := Delete(d, id);
    var full := e + [(id, duration)];
    var r := DurationSaved(d, id, duration);
    var off := |full| - |r|;
    assert r == full[off..];
    var a :| 0 <= a < |r| && r[a].0 == e[i].0;
    assert full[off + a] == r[a] && full[i] == e[i];
    SavedUnique(d, id, duration);
    assert off + a == i;
    assert r[j - off] == full[j] && full[j] == e[j];
    assert 0 <= j - off < |r| && r[j - off].0 == e[j].0;
  }

  // ---------------------------------------------------------------------
  // All actions together

  /** The store's actions; `now` is the clock reading the source takes
      from `Date.now()`. */
  datatype Action =
    | StartStreaming(id: string)
    | AppendContent(id: string, text: string, now: int)
    | AppendReasoning(id: string, text: string, now: int)
    | CompleteReasoning(id: string, now: int)
    | UpdateToolCall(id: string, patch: ToolCall, index: nat)
    | EndStreaming(id: string, now: int)
    | ClearInbox(id: string)
    | SaveReasoningDuration(id: string, duration: int)
    | ClearAll

  function Apply(s: StoreState, a: Action): StoreState {
    match a
    case StartStreaming(id) => Started(s, id)
    case AppendContent(id, text, now) => ContentAppended(s, id, text, now)
    case AppendReasoning(id, text, now) => ReasoningAppended(s, id, text, now)
    case CompleteReasoning(id, now) => ReasoningCompleted(s, id, now)
    case UpdateToolCall(id, patch, index) => ToolCallUpdated(s, id, patch, index)
    case EndStreaming(id, now) => StreamingEnded(s, id, now)
    case ClearInbox(id) => InboxCleared(s, id)
    case SaveReasoningDuration(id, duration) => s.(durations := DurationSaved(s.durations, id, duration))
    case ClearAll => EmptyState
  }

  /** Every action keeps the store's invariant. */
  lemma ApplyKeepsValid(s: StoreState, a: Action)
    requires ValidState(s)
    ensures ValidState(Apply(s, a))
  {
    match a
    case StartStreaming(id) => SetUnique(s.streams, id, FreshEntry);
    case AppendContent(id, text, now) =>
      if IsStreamingIn(s, id) { SetUnique(s.streams, id, StreamingContentOf(Apply(s, a), id).value); }
    case AppendReasoning(id, text, now) =>
      if IsStreamingIn(s, id) { SetUnique(s.streams, id, StreamingContentOf(Apply(s, a), id).value); }
    case CompleteReasoning(id, now) =>
      if IsStreamingIn(s, id) { SetUnique(s.streams, id, StreamingContentOf(Apply(s, a), id).value); }
    case UpdateToolCall(id, patch, index) =>
      if HasKey(s.streams, id) { SetUnique(s.streams, id, StreamingContentOf(Apply(s, a), id).value); }
    case EndStreaming(id, now) =>
      if HasKey(s.streams, id) { SetUnique(s.streams, id, StreamingContentOf(Apply(s, a), id).value); }
    case ClearInbox(id) =>
    case SaveReasoningDuration(id, duration) => DurationSavedValid(s.durations, id, duration);
    case ClearAll =>
  }

  /** Once an inbox's reasoning duration is positive, no action other than
      `startStreaming` for that inbox or `clearAll` changes it while the
      entry exists. */
  lemma DurationFixedOncePositive(s: StoreState, a: Action, id: string)
    requires StreamingContentOf(s, id).Some? && StreamingContentOf(s, id).value.reasoningDuration > 0
    requires a != StartStreaming(id) && a != ClearAll
    ensures var n := StreamingContentOf(Apply(s, a), id);
      n.Some? ==> n.value.reasoningDuration == StreamingContentOf(s, id).value.reasoningDuration
  {
    var c := StreamingContentOf(s, id).value;
    match a
    case StartStreaming(k) =>
      assert k != id;
    case AppendContent(k, text, now) =>
      if k == id { assert ReasoningDuration(c, now) == c.reasoningDuration; }
    case CompleteReasoning(k, now) =>
      if k == id { assert ReasoningDuration(c, now) == c.reasoningDuration; }
    case EndStreaming(k, now) =>
      if k == id { assert ReasoningDuration(c, now) == c.reasoningDuration; }
    case _ =>
  }

  /** Only `startStreaming`, `saveReasoningDuration` and `clearAll` touch
      the duration ledger. */
  lemma LedgerOnlyChangedBySaveOrStart(s: StoreState, a: Action)
    requires !a.StartStreaming? && !a.SaveReasoningDuration? && !a.ClearAll?
    ensures Apply(s, a).durations == s.durations
  {
    match a
    case AppendContent(id, text, now) =>
    case AppendReasoning(id, text, now) =>
    case CompleteReasoning(id, now) =>
    case UpdateToolCall(id, patch, index) =>
    case EndStreaming(id, now) =>
    case ClearInbox(id) =>
  }

  /** The first reasoning token's time is kept by every later reasoning
      token of the same turn. */
  lemma StartTimeKept(s: StoreState, id: string, t1: string, now1: int, t2: string, now2: int)
    requires IsStreamingIn(s, id) && StreamingContentOf(s, id).value.reasoningStartTime.None?
    ensures var s2 := ReasoningAppended(ReasoningAppended(s, id, t1, now1), id, t2, now2);
      StreamingContentOf(s2, id).value.reasoningStartTime == Some(now1)
  {
    var s1 := ReasoningAppended(s, id, t1, now1);
    assert IsStreamingIn(s1, id);
  }

  /** The eviction loop of `saveReasoningDuration`: deletes the first
      `count` keys of the ledger one at a time, which leaves its last
      entries in order. */
  method DeleteOldest(d: seq<(string, int)>, count: nat) returns (r: seq<(string, int)>)
    requires UniqueKeys(d) && count <= |d|
    ensures r == d[count..]
  {
    var keysToRemove := Keys(d)[..count];
    r := d;
    var i := 0;
    while i < |keysToRemove|
      invariant 0 <= i <= count
      invariant r == d[i..]
      invariant UniqueKeys(r)
    {
      assert keysToRemove[i] == r[0].0;
      DeleteFirst(r);
      TailUnique(r);
      r := Delete(r, keysToRemove[i]);
      i := i + 1;
    }
  }

  /** The body of `saveReasoningDuration` on the ledger: delete `id` if
      present, set it at the end, then drop the oldest entries beyond
      the cap. */
  method SaveDuration(d: seq<(string, int)>, id: string, duration: int) returns (r: seq<(string, int)>)
    requires UniqueKeys(d)
    ensures r == DurationSaved(d, id, duration)
  {
    r := d;
    if HasKey(r, id) {
      r := Delete(r, id);
    }
    assert r == Delete(d, id);
    SetAfterDelete(d, id, duration);
    r := Set(r, id, duration);
    r := KeepNewest(r);
  }

  /** Drops the oldest entries of a duplicate-free ledger beyond the cap. */
  method KeepNewest(d: seq<(string, int)>) returns (r: seq<(string, int)>)
    requires UniqueKeys(d)
    ensures r == Newest(d, MaxReasoningDurations)
  {
    r := d;
    if |r| > MaxReasoningDurations {
      r := DeleteOldest(r, |r| - MaxReasoningDurations);
    }
  }

  // ---------------------------------------------------------------------
  // The store object

  /** The zustand store: two maps that every action replaces. */
  class Store {
    var streams: seq<(string, StreamingContent)>
    var durations: seq<(string, int)>

    function State(): StoreState
      reads this
    {
      StoreState(streams, durations)
    }

    ghost predicate Valid()
      reads this
    {
      ValidState(State())
    }

    constructor ()
      ensures Valid() && State() == EmptyState
    {
      streams, durations := [], [];
    }

    method StartStreaming(id: string)
      requires Valid()
      modifies this
      ensures Valid() && State() == Started(old(State()), id)
    {
      SetUnique(streams, id, FreshEntry);
      durations := Delete(durations, id);
      streams := Set(streams, id, FreshEntry);
    }

    method AppendContent(id: string, text: string, now: int)
      requires Valid()
      modifies this
      ensures Valid() && State() == ContentAppended(old(State()), id, text, now)
    {
      var current := Get(streams, id);
      if current.None? || !current.value.isStreaming {
        return;
      }
      var c := current.value;
      var reasoning := if c.reasoning.Some? then Some(c.reasoning.value.(status := CompleteUnknown)) else None;
      var next := c.(content := c.content + text, reasoning := reasoning, reasoningDuration := ReasoningDuration(c, now));
      SetUnique(streams, id, next);
      streams := Set(streams, id, next);
    }

    method AppendReasoning(id: string, text: string, now: int)
      requires Valid()
      modifies this
      ensures Valid() && State() == ReasoningAppended(old(State()), id, text, now)
    {
      var current := Get(streams, id);
      if current.None? || !current.value.isStreaming {
        return;
      }
      var c := current.value;
      var reasoning := c.reasoning.GetOr(Reasoning("", Running));
      var start := c.reasoningStartTime.OrElse(Some(now));
      var next := c.(reasoning := Some(Reasoning(reasoning.text + text, Running)), reasoningStartTime := start);
      SetUnique(streams, id, next);
      streams := Set(streams, id, next);
    }

    method CompleteReasoning(id: string, now: int)
      requires Valid()
      modifies this
      ensures Valid() && State() == ReasoningCompleted(old(State()), id, now)
    {
      var current := Get(streams, id);
      if current.None? || !current.value.isStreaming || current.value.reasoning.None? {
        return;
      }
      var c := current.value;
      var next := c.(reasoning := Some(c.reasoning.value.(status := CompleteUnknown)),
                     reasoningDuration := ReasoningDuration(c, now));
      SetUnique(streams, id, next);
      streams := Set(streams, id, next);
    }

    method UpdateToolCall(id: string, patch: ToolCall, index: nat)
      requires Valid()
      modifies this
      ensures Valid() && State() == ToolCallUpdated(old(State()), id, patch, index)
    {
      var current := Get(streams, id);
      if current.None? {
        return;
      }
      var c := current.value;
      var calls := c.toolCalls;
      if index < |calls| {
        calls := calls[index := MergeToolCall(calls[index], patch)];
      } else {
        calls := calls + [patch];
      }
      SetUnique(streams, id, c.(toolCalls := calls));
      streams := Set(streams, id, c.(toolCalls := calls));
    }

    method EndStreaming(id: string, now: int)
      requires Valid()
      modifies this
      ensures Valid() && State() == StreamingEnded(old(State()), id, now)
    {
      var current := Get(streams, id);
      if current.None? {
        return;
      }
      var c := current.value;
      var next := c.(isStreaming := false, reasoningDuration := ReasoningDuration(c, now));
      SetUnique(streams, id, next);
      streams := Set(streams, id, next);
    }

    method ClearInbox(id: string)
      requires Valid()
      modifies this
      ensures Valid() && State() == InboxCleared(old(State()), id)
    {
      if !HasKey(streams, id) {
        return;
      }
      streams := Delete(streams, id);
    }

    /** Moves `id` to the newest position, then deletes the oldest keys one
        by one until the ledger is back within the cap. */
    method SaveReasoningDuration(id: string, duration: int)
      requires Valid()
      modifies this
      ensures Valid() && durations == DurationSaved(old(durations), id, duration) && streams == old(streams)
    {
      var d := SaveDuration(durations, id, duration);
      DurationSavedValid(durations, id, duration);
      durations := d;
    }

    method ClearAll()
      modifies this
      ensures Valid() && State() == EmptyState
    {
      streams, durations := [], [];
    }
  }
}
