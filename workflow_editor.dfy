/** The workflow editor canvas: the serialized snapshot that decides
    whether the workflow has unsaved changes, the baseline it is compared
    with, the restore of that baseline, and the edits made from the side
    panel to the selected node. */
module WorkflowEditor {
  import opened Wrappers
  import opened WorkflowUtils

  // ---------------------------------------------------------------------
  // Ordering ids. `localeCompare` is modelled by code-point lexicographic
  // order; all that serialization needs of it is a total order.
  // ---------------------------------------------------------------------

  predicate StrLe(a: string, b: string)
    decreases |a|
  {
    a == [] || (b != [] && (a[0] < b[0] || (a[0] == b[0] && StrLe(a[1..], b[1..]))))
  }

  lemma {:induction false} StrLeTotal(a: string, b: string)
    ensures StrLe(a, b) || StrLe(b, a)
    decreases |a|
  {
    if a != [] && b != [] && a[0] == b[0] {
      StrLeTotal(a[1..], b[1..]);
    }
  }

  lemma {:induction false} StrLeAntisymmetric(a: string, b: string)
    ensures StrLe(a, b) && StrLe(b, a) ==> a == b
    decreases |a|
  {
    if a != [] && b != [] {
      StrLeAntisymmetric(a[1..], b[1..]);
      assert a == [a[0]] + a[1..] && b == [b[0]] + b[1..];
    }
  }

  lemma {:induction false} StrLeTransitive(a: string, b: string, c: string)
    requires StrLe(a, b) && StrLe(b, c)
    ensures StrLe(a, c)
    decreases |a|
  {
    if a != [] && a[0] == b[0] && b[0] == c[0] {
      StrLeTransitive(a[1..], b[1..], c[1..]);
    }
  }

  // ---------------------------------------------------------------------
  // Mapping and sorting by id
  // ---------------------------------------------------------------------

  /** `Array.prototype.map`. */
  function MapSeq<T, U>(s: seq<T>, f: T -> U): (r: seq<U>)
    ensures |r| == |s|
    ensures forall i :: 0 <= i < |s| ==> r[i] == f(s[i])
  {
    if s == [] then [] else [f(s[0])] + MapSeq(s[1..], f)
  }

  lemma MapSeqAppend<T, U>(a: seq<T>, b: seq<T>, f: T -> U)
    ensures MapSeq(a + b, f) == MapSeq(a, f) + MapSeq(b, f)
  {
  }

  /** Mapping two arrangements of the same elements gives two arrangements
      of the same results. */
  lemma {:induction false} MapSeqMultiset<T, U>(a: seq<T>, b: seq<T>, f: T -> U)
    requires multiset(a) == multiset(b)
    ensures multiset(MapSeq(a, f)) == multiset(MapSeq(b, f))
    decreases |a|
  {
    if a != [] {
      var x := a[0];
      assert x in multiset(b);
      var j :| 0 <= j < |b| && b[j] == x;
      var rest := b[..j] + b[j + 1..];
      SplitAt(b, j);
      MultisetMiddle(b[..j], x, b[j + 1..]);
      MapSeqMiddle(b[..j], x, b[j + 1..], f);
      assert a == [x] + a[1..];
      assert multiset(a) == multiset{x} + multiset(a[1..]);
      MultisetCancel(x, multiset(a[1..]), multiset(rest));
      MapSeqMultiset(a[1..], rest, f);
      assert MapSeq(a, f) == [f(x)] + MapSeq(a[1..], f);
    }
  }

  /** Mapping a sequence with `y` in its middle gives `f(y)` once more
      than mapping it without. */
  lemma MapSeqMiddle<T, U>(p: seq<T>, y: T, q: seq<T>, f: T -> U)
    ensures multiset(MapSeq(p + [y] + q, f)) == multiset{f(y)} + multiset(MapSeq(p + q, f))
  {
    MapSeqAppend(p + [y], q, f);
    MapSeqAppend(p, [y], f);
    MapSeqAppend(p, q, f);
    assert MapSeq([y], f) == [f(y)];
    MultisetMiddle(MapSeq(p, f), f(y), MapSeq(q, f));
  }

  lemma SplitAt<X>(c: seq<X>, j: nat)
    requires j < |c|
    ensures c == c[..j] + [c[j]] + c[j + 1..]
  {
  }

  /** An element in the middle of a sequence counts once in its multiset. */
  lemma MultisetMiddle<X>(p: seq<X>, y: X, q: seq<X>)
    ensures multiset(p + [y] + q) == multiset{y} + multiset(p + q)
  {
    calc {
      multiset(p + [y] + q);
      multiset(p) + multiset{y} + multiset(q);
      multiset{y} + multiset(p + q);
    }
  }

  lemma MultisetCancel<T>(x: T, p: multiset<T>, q: multiset<T>)
    requires multiset{x} + p == multiset{x} + q
    ensures p == q
  {
    forall y
      ensures p[y] == q[y]
    {
      assert (multiset{x} + p)[y] == (multiset{x} + q)[y];
    }
  }

  ghost predicate SortedBy<T>(s: seq<T>, key: T -> string) {
    forall i, j :: 0 <= i < j < |s| ==> StrLe(key(s[i]), key(s[j]))
  }

  ghost predicate UniqueBy<T>(s: seq<T>, key: T -> string) {
    forall i, j :: 0 <= i < j < |s| ==> key(s[i]) != key(s[j])
  }

  /** Inserts `x` before the first element whose key is not below its own,
      so that equal keys keep their order. */
  function InsertBy<T>(x: T, s: seq<T>, key: T -> string): seq<T> {
    if s == [] then [x]
    else if StrLe(key(x), key(s[0])) then [x] + s
    else [s[0]] + InsertBy(x, s[1..], key)
  }

  /** Insertion adds exactly the inserted element. */
  lemma {:induction false} InsertByPermutes<T>(x: T, s: seq<T>, key: T -> string)
    ensures multiset(InsertBy(x, s, key)) == multiset(s) + multiset{x}
  {
    if s != [] && !StrLe(key(x), key(s[0])) {
      InsertByPermutes(x, s[1..], key);
      assert s == [s[0]] + s[1..];
    }
  }

  /** An element whose key is at most every key of a sorted sequence can
      go in front of it. */
  lemma ConsSorted<T>(h: T, t: seq<T>, key: T -> string)
    requires SortedBy(t, key)
    requires forall y :: y in t ==> StrLe(key(h), key(y))
    ensures SortedBy([h] + t, key)
  {
    var r := [h] + t;
    forall i, j | 0 <= i < j < |r|
      ensures StrLe(key(r[i]), key(r[j]))
    {
      assert r[j] == t[j - 1];
      if i > 0 {
        assert r[i] == t[i - 1];
      }
    }
  }

  lemma {:induction false} InsertKeepsSorted<T>(x: T, s: seq<T>, key: T -> string)
    requires SortedBy(s, key)
    ensures SortedBy(InsertBy(x, s, key), key)
  {
    if s != [] && !StrLe(key(x), key(s[0])) {
      StrLeTotal(key(x), key(s[0]));
      InsertKeepsSorted(x, s[1..], key);
      var tail := InsertBy(x, s[1..], key);
      InsertByPermutes(x, s[1..], key);
      forall y | y in tail
        ensures StrLe(key(s[0]), key(y))
      {
        assert y in multiset(s[1..]) + multiset{x};
        if y != x {
          var k :| 0 <= k < |s[1..]| && s[1..][k] == y;
          assert s[k + 1] == y;
        }
      }
      ConsSorted(s[0], tail, key);
    } else if s != [] {
      forall y | y in s
        ensures StrLe(key(x), key(y))
      {
        var k :| 0 <= k < |s| && s[k] == y;
        if k > 0 {
          StrLeTransitive(key(x), key(s[0]), key(s[k]));
        }
      }
      ConsSorted(x, s, key);
    }
  }

  /** The comparator sort used by serialization (a stable sort by key). */
  function SortBy<T>(s: seq<T>, key: T -> string): seq<T> {
    if s == [] then [] else InsertBy(s[0], SortBy(s[1..], key), key)
  }

  /** Sorting rearranges its input. */
  lemma {:induction false} SortByPermutes<T>(s: seq<T>, key: T -> string)
    ensures multiset(SortBy(s, key)) == multiset(s)
  {
    if s != [] {
      SortByPermutes(s[1..], key);
      InsertByPermutes(s[0], SortBy(s[1..], key), key);
      assert s == [s[0]] + s[1..];
    }
  }

  lemma {:induction false} SortBySorted<T>(s: seq<T>, key: T -> string)
    ensures SortedBy(SortBy(s, key), key)
  {
    if s != [] {
      SortBySorted(s[1..], key);
      InsertKeepsSorted(s[0], SortBy(s[1..], key), key);
    }
  }

  /** Two sorted arrangements of one collection with distinct keys start
      with the same element. */
  lemma SameFirst<T>(a: seq<T>, b: seq<T>, key: T -> string)
    requires SortedBy(a, key) && SortedBy(b, key) && UniqueBy(a, key)
    requires multiset(a) == multiset(b) && a != []
    ensures b != [] && a[0] == b[0]
  {
    assert |b| == |multiset(b)| == |a|;
    assert a[0] in multiset(b) && b[0] in multiset(a);
    var j :| 0 <= j < |b| && b[j] == a[0];
    var k :| 0 <= k < |a| && a[k] == b[0];
    StrLeAntisymmetric(key(a[0]), key(a[k]));
  }

  /** With distinct keys there is only one sorted arrangement of a
      collection. */
  lemma {:induction false} SortedUnique<T>(a: seq<T>, b: seq<T>, key: T -> string)
    requires SortedBy(a, key) && SortedBy(b, key) && UniqueBy(a, key)
    requires multiset(a) == multiset(b)
    ensures a == b
    decreases |a|
  {
    if a == [] {
      assert |b| == |multiset(b)| == 0;
    } else {
      SameFirst(a, b, key);
      assert a == [a[0]] + a[1..] && b == [b[0]] + b[1..];
      assert multiset(a) == multiset{a[0]} + multiset(a[1..]);
      assert multiset(b) == multiset{b[0]} + multiset(b[1..]);
      MultisetCancel(a[0], multiset(a[1..]), multiset(b[1..]));
      SortedUnique(a[1..], b[1..], key);
    }
  }

  // ---------------------------------------------------------------------
  // The serialized snapshot
  // ---------------------------------------------------------------------

  /** The node fields the snapshot keeps: not the canvas's selection. */
  datatype SafeNode = SafeNode(id: string, flowType: FlowType, position: Position, data: WorkflowNodeData)

  /** The edge fields the snapshot keeps: not the label, the animation or
      the selection. */
  datatype SafeEdge = SafeEdge(id: string, source: string, target: string, sourceHandle: Option<string>,
                               targetHandle: Option<string>, data: Option<ForwardCondition>)

  function SafeNodeOf(n: WorkflowNode): SafeNode {
    SafeNode(n.id, n.flowType, n.position, n.data)
  }

  function SafeEdgeOf(e: WorkflowEdge): SafeEdge {
    SafeEdge(e.id, e.source, e.target, e.sourceHandle, e.targetHandle, e.data)
  }

  function SafeNodeId(n: SafeNode): string { n.id }

  function SafeEdgeId(e: SafeEdge): string { e.id }

  /** The snapshot's content; the string the editor compares is its JSON
      text, and equal texts are equal snapshots. */
  datatype Snapshot = Snapshot(nodes: seq<SafeNode>, edges: seq<SafeEdge>)

  /** `serializeWorkflowState`: the kept fields, sorted by id. */
  function Serialize(nodes: seq<WorkflowNode>, edges: seq<WorkflowEdge>): Snapshot {
    Snapshot(SortBy(MapSeq(nodes, SafeNodeOf), SafeNodeId), SortBy(MapSeq(edges, SafeEdgeOf), SafeEdgeId))
  }

  ghost predicate UniqueNodeIds(nodes: seq<WorkflowNode>) {
    forall i, j :: 0 <= i < j < |nodes| ==> nodes[i].id != nodes[j].id
  }

  ghost predicate UniqueEdgeIds(edges: seq<WorkflowEdge>) {
    forall i, j :: 0 <= i < j < |edges| ==> edges[i].id != edges[j].id
  }

  /** The snapshot lists the kept fields of every node and edge, each
      once, by increasing id. */
  lemma SerializeSorted(nodes: seq<WorkflowNode>, edges: seq<WorkflowEdge>)
    ensures multiset(Serialize(nodes, edges).nodes) == multiset(MapSeq(nodes, SafeNodeOf))
    ensures multiset(Serialize(nodes, edges).edges) == multiset(MapSeq(edges, SafeEdgeOf))
    ensures SortedBy(Serialize(nodes, edges).nodes, SafeNodeId)
    ensures SortedBy(Serialize(nodes, edges).edges, SafeEdgeId)
  {
    SortBySorted(MapSeq(nodes, SafeNodeOf), SafeNodeId);
    SortBySorted(MapSeq(edges, SafeEdgeOf), SafeEdgeId);
    SortByPermutes(MapSeq(nodes, SafeNodeOf), SafeNodeId);
    SortByPermutes(MapSeq(edges, SafeEdgeOf), SafeEdgeId);
  }

  /** Reordering the canvas's nodes or edges (ids being distinct) does not
      change the snapshot, so it does not make the workflow dirty. */
  lemma SerializeOrderIndependent(n1: seq<WorkflowNode>, e1: seq<WorkflowEdge>,
                                  n2: seq<WorkflowNode>, e2: seq<WorkflowEdge>)
    requires UniqueNodeIds(n1) && UniqueEdgeIds(e1)
    requires multiset(n1) == multiset(n2) && multiset(e1) == multiset(e2)
    ensures Serialize(n1, e1) == Serialize(n2, e2)
  {
    var s1, s2 := Serialize(n1, e1), Serialize(n2, e2);
    SerializeSorted(n1, e1);
    SerializeSorted(n2, e2);
    MapSeqMultiset(n1, n2, SafeNodeOf);
    MapSeqMultiset(e1, e2, SafeEdgeOf);
    UniqueAfterSort(MapSeq(n1, SafeNodeOf), SafeNodeId);
    UniqueAfterSort(MapSeq(e1, SafeEdgeOf), SafeEdgeId);
    SortedUnique(s1.nodes, s2.nodes, SafeNodeId);
    SortedUnique(s1.edges, s2.edges, SafeEdgeId);
  }

  /** Sorting keeps keys distinct. */
  lemma UniqueAfterSort<T>(s: seq<T>, key: T -> string)
    requires UniqueBy(s, key)
    ensures UniqueBy(SortBy(s, key), key)
  {
    var r := SortBy(s, key);
    SortByPermutes(s, key);
    forall i, j | 0 <= i < j < |r|
      ensures key(r[i]) != key(r[j])
    {
      assert r[i] in multiset(s) && r[j] in multiset(s);
      var p :| 0 <= p < |s| && s[p] == r[i];
      var q :| 0 <= q < |s| && s[q] == r[j];
      SameElementTwice(r, i, j);
      OccursOnce(s, key, p);
    }
  }

  /** Equal elements at two places of a sequence occur twice in it. */
  lemma SameElementTwice<T>(r: seq<T>, i: int, j: int)
    requires 0 <= i < j < |r|
    ensures r[i] == r[j] ==> multiset(r)[r[i]] >= 2
  {
    assert r == r[..i] + [r[i]] + r[i + 1..j] + [r[j]] + r[j + 1..];
  }

  /** With distinct keys every element occurs once. */
  lemma OccursOnce<T>(s: seq<T>, key: T -> string, p: int)
    requires UniqueBy(s, key) && 0 <= p < |s|
    ensures multiset(s)[s[p]] == 1
  {
    assert s == s[..p] + [s[p]] + s[p + 1..];
    forall t | 0 <= t < p
      ensures s[..p][t] != s[p]
    {
      assert key(s[t]) != key(s[p]);
    }
    forall t | p < t < |s|
      ensures s[t] != s[p]
    {
      assert key(s[p]) != key(s[t]);
    }
    assert s[p] !in s[..p] && s[p] !in s[p + 1..];
  }

  /** Selecting or deselecting nodes and edges, and relabelling or
      animating edges, leave the snapshot as it is. */
  lemma CanvasStateNotSerialized(n1: seq<WorkflowNode>, e1: seq<WorkflowEdge>,
                                 n2: seq<WorkflowNode>, e2: seq<WorkflowEdge>)
    requires |n1| == |n2| && |e1| == |e2|
    requires forall i :: 0 <= i < |n1| ==> n2[i] == n1[i].(selected := n2[i].selected)
    requires forall i :: 0 <= i < |e1| ==>
      e2[i] == e1[i].(labelText := e2[i].labelText, animated := e2[i].animated, selected := e2[i].selected)
    ensures Serialize(n1, e1) == Serialize(n2, e2)
  {
    assert MapSeq(n1, SafeNodeOf) == MapSeq(n2, SafeNodeOf);
    assert MapSeq(e1, SafeEdgeOf) == MapSeq(e2, SafeEdgeOf);
  }

  // ---------------------------------------------------------------------
  // Cloning
  // ---------------------------------------------------------------------

  /** `cloneWorkflowNode`: a copy of the position, the data, the agent
      settings and (through JSON) the condition. */
  function CloneNode(n: WorkflowNode): (r: WorkflowNode)
    ensures r == n
  {
    var d := n.data;
    n.(position := Position(n.position.x, n.position.y),
       data := d.(
         agentConfig := if d.agentConfig.Some?
                        then Some(AgentConfig(d.agentConfig.value.name, d.agentConfig.value.llm, d.agentConfig.value.instructions))
                        else None,
         conditionalConfig := if d.conditionalConfig.Some? then Some(d.conditionalConfig.value) else None))
  }

  /** `cloneWorkflowEdge`: a copy of the condition object. */
  function CloneEdge(e: WorkflowEdge): (r: WorkflowEdge)
    ensures r == e
  {
    e.(data := if e.data.Some?
               then Some(ForwardCondition(e.data.value.labelText, e.data.value.kind, e.data.value.expression))
               else None)
  }

  /** A cloned canvas serializes as the original. */
  lemma ClonesSerializeAlike(nodes: seq<WorkflowNode>, edges: seq<WorkflowEdge>)
    ensures Serialize(MapSeq(nodes, CloneNode), MapSeq(edges, CloneEdge)) == Serialize(nodes, edges)
  {
    assert MapSeq(nodes, CloneNode) == nodes;
    assert MapSeq(edges, CloneEdge) == edges;
  }

  // ---------------------------------------------------------------------
  // Side-panel edits
  // ---------------------------------------------------------------------

  /** A selection id is acted on only when present and non-empty. */
  predicate HasSelection(selected: Option<string>) {
    selected.Some? && selected.value != ""
  }

  /** The agent settings as the panel sees them: every field filled in. */
  datatype AgentSettings = AgentSettings(name: string, llm: string, instructions: string)

  /** The settings shown for a node: the stored ones, falling back to the
      node's label, the default model and no instructions. */
  function CurrentSettings(d: WorkflowNodeData): (r: AgentSettings)
    ensures d.agentConfig.None? ==> r == AgentSettings(d.labelText, DefaultLlm, "")
    ensures d.agentConfig.Some? ==>
      r.name == d.agentConfig.value.name && r.llm == d.agentConfig.value.llm
      && r.instructions == d.agentConfig.value.instructions.GetOr("")
  {
    match d.agentConfig
    case None => AgentSettings(d.labelText, DefaultLlm, "")
    case Some(c) => AgentSettings(c.name, c.llm, c.instructions.GetOr(""))
  }

  /** One node after `handleAgentChange`. */
  function AgentNodeChanged(n: WorkflowNode, updater: AgentSettings -> AgentSettings): WorkflowNode {
    var next := updater(CurrentSettings(n.data));
    n.(data := n.data.(labelText := next.name, agentConfig := Some(AgentConfig(next.name, next.llm, Some(next.instructions)))))
  }

  /** `handleAgentChange`: only the selected agent node changes; it takes
      the updated settings and its label follows the agent's name. */
  function AgentChanged(nodes: seq<WorkflowNode>, selected: Option<string>,
                        updater: AgentSettings -> AgentSettings): (r: seq<WorkflowNode>)
    ensures !HasSelection(selected) ==> r == nodes
    ensures |r| == |nodes|
    ensures forall i :: 0 <= i < |nodes| ==> r[i].id == nodes[i].id && r[i].position == nodes[i].position
    ensures forall i :: 0 <= i < |nodes| && (!HasSelection(selected) || nodes[i].id != selected.value ||
                                             nodes[i].data.nodeType != Agent)
                        ==> r[i] == nodes[i]
    ensures forall i :: 0 <= i < |nodes| && HasSelection(selected) && nodes[i].id == selected.value
                                          && nodes[i].data.nodeType == Agent ==>
      var next := updater(CurrentSettings(nodes[i].data));
      r[i] == nodes[i].(data := nodes[i].data.(labelText := next.name,
                                               agentConfig := Some(AgentConfig(next.name, next.llm, Some(next.instructions)))))
  {
    if !HasSelection(selected) then nodes
    else MapSeq(nodes, (n: WorkflowNode) =>
                       if n.id != selected.value || n.data.nodeType != Agent then n else AgentNodeChanged(n, updater))
  }

  /** An updater that changes nothing leaves an agent node alone once its
      label and fully-specified settings agree. */
  lemma AgentChangeIdentity(nodes: seq<WorkflowNode>, selected: Option<string>)
    requires forall i :: 0 <= i < |nodes| ==>
      nodes[i].data.nodeType == Agent ==>
        && nodes[i].data.agentConfig.Some? && nodes[i].data.agentConfig.value.instructions.Some?
        && nodes[i].data.labelText == nodes[i].data.agentConfig.value.name
    ensures AgentChanged(nodes, selected, (s: AgentSettings) => s) == nodes
  {
    var r := AgentChanged(nodes, selected, (s: AgentSettings) => s);
    forall i | 0 <= i < |nodes|
      ensures r[i] == nodes[i]
    {
      if HasSelection(selected) && nodes[i].id == selected.value && nodes[i].data.nodeType == Agent {
        assert r[i].data == nodes[i].data;
      }
    }
  }

  /** `handleNodeLabelChange`: the selected node, whatever its kind, takes
      the new label; nothing else changes. */
  function NodeLabelChanged(nodes: seq<WorkflowNode>, selected: Option<string>, newLabel: string): (r: seq<WorkflowNode>)
    ensures !HasSelection(selected) ==> r == nodes
    ensures |r| == |nodes|
    ensures forall i :: 0 <= i < |nodes| && HasSelection(selected) && nodes[i].id == selected.value ==>
      r[i] == nodes[i].(data := nodes[i].data.(labelText := newLabel))
    ensures forall i :: 0 <= i < |nodes| && (!HasSelection(selected) || nodes[i].id != selected.value) ==>
      r[i] == nodes[i]
  {
    if !HasSelection(selected) then nodes
    else MapSeq(nodes, (n: WorkflowNode) =>
                       if n.id == selected.value then n.(data := n.data.(labelText := newLabel)) else n)
  }

  /** Setting the same label twice is setting it once. */
  lemma NodeLabelIdempotent(nodes: seq<WorkflowNode>, selected: Option<string>, newLabel: string)
    ensures NodeLabelChanged(NodeLabelChanged(nodes, selected, newLabel), selected, newLabel)
         == NodeLabelChanged(nodes, selected, newLabel)
  {
  }

  /** Renaming an existing node to a different label makes the snapshot
      differ, so the edit is reported as an unsaved change. */
  lemma {:induction false} RenameChangesSnapshot(nodes: seq<WorkflowNode>, edges: seq<WorkflowEdge>,
                                                 selected: Option<string>, newLabel: string, k: int)
    requires UniqueNodeIds(nodes) && 0 <= k < |nodes|
    requires HasSelection(selected) && nodes[k].id == selected.value && nodes[k].data.labelText != newLabel
    ensures Serialize(NodeLabelChanged(nodes, selected, newLabel), edges) != Serialize(nodes, edges)
  {
    var renamed := NodeLabelChanged(nodes, selected, newLabel);
    var y := SafeNodeOf(renamed[k]);
    var before := MapSeq(nodes, SafeNodeOf);
    forall i | 0 <= i < |before|
      ensures before[i] != y
    {
      if i != k {
        assert nodes[i].id != nodes[k].id;
      }
    }
    assert y !in multiset(before);
    assert MapSeq(renamed, SafeNodeOf)[k] == y;
    assert y in multiset(MapSeq(renamed, SafeNodeOf));
    SerializeSorted(renamed, edges);
    SerializeSorted(nodes, edges);
    assert y in multiset(Serialize(renamed, edges).nodes);
    assert y !in multiset(Serialize(nodes, edges).nodes);
  }

  /** The selection effect: a selected id is dropped exactly when no node
      carries it any more; an empty or absent selection is left as it is. */
  function CleanedSelection(selected: Option<string>, nodes: seq<WorkflowNode>): (r: Option<string>)
    ensures r == selected || r.None?
    ensures r.None? && selected.Some? && selected.value != "" ==> forall i :: 0 <= i < |nodes| ==> nodes[i].id != selected.value
    ensures HasSelection(selected) && (exists i :: 0 <= i < |nodes| && nodes[i].id == selected.value) ==> r == selected
    ensures HasSelection(selected) && (forall i :: 0 <= i < |nodes| ==> nodes[i].id != selected.value) ==> r.None?
    ensures !HasSelection(selected) ==> r == selected
  {
    if HasSelection(selected) && forall i :: 0 <= i < |nodes| ==> nodes[i].id != selected.value then None
    else selected
  }

  /** Edits from the panel keep every id, so they never drop the
      selection. */
  lemma EditsKeepSelection(nodes: seq<WorkflowNode>, selected: Option<string>, newLabel: string,
                           updater: AgentSettings -> AgentSettings)
    requires CleanedSelection(selected, nodes) == selected
    ensures CleanedSelection(selected, NodeLabelChanged(nodes, selected, newLabel)) == selected
    ensures CleanedSelection(selected, AgentChanged(nodes, selected, updater)) == selected
  {
    if HasSelection(selected) {
      var i :| 0 <= i < |nodes| && nodes[i].id == selected.value;
      assert NodeLabelChanged(nodes, selected, newLabel)[i].id == selected.value;
      assert AgentChanged(nodes, selected, updater)[i].id == selected.value;
    }
  }

  // ---------------------------------------------------------------------
  // The canvas
  // ---------------------------------------------------------------------

  /** What the parent last heard through `onDirtyChange` (nothing yet
      reads as clean). */
  function LastReport(reports: seq<bool>): (r: bool)
    ensures reports == [] ==> !r
    ensures reports != [] ==> r == reports[|reports| - 1]
  {
    if reports == [] then false else reports[|reports| - 1]
  }

  /** The canvas's nodes and edges, its refs, its selection and the
      reports it has sent to the parent. */
  class WorkflowCanvas {
    var nodes: seq<WorkflowNode>
    var edges: seq<WorkflowEdge>
    var baselineNodes: seq<WorkflowNode>
    var baselineEdges: seq<WorkflowEdge>
    var baselineSerialized: Snapshot
    var lastDirty: bool
    var restoreInit: bool
    var selectedNodeId: Option<string>
    var dirtyReports: seq<bool>

    /** The baseline text is the baseline's snapshot, and the dirty ref is
        what the parent was last told. */
    ghost predicate Valid()
      reads this
    {
      baselineSerialized == Serialize(baselineNodes, baselineEdges) && lastDirty == LastReport(dirtyReports)
    }

    /** The first render, before the effects run: the initial workflow is
        both the canvas and the baseline. */
    constructor (initial: WorkflowState)
      ensures Valid()
      ensures nodes == initial.nodes && edges == initial.edges
      ensures baselineNodes == initial.nodes && baselineEdges == initial.edges
      ensures !lastDirty && restoreInit && selectedNodeId.None? && dirtyReports == []
    {
      nodes := initial.nodes;
      edges := initial.edges;
      var clonedNodes := MapSeq(initial.nodes, CloneNode);
      var clonedEdges := MapSeq(initial.edges, CloneEdge);
      baselineNodes := clonedNodes;
      baselineEdges := clonedEdges;
      baselineSerialized := Serialize(clonedNodes, clonedEdges);
      lastDirty := false;
      restoreInit := true;
      selectedNodeId := None;
      dirtyReports := [];
    }

    /** The dirty effect, after nodes or edges changed: the parent hears
        of a change of dirtiness, and only of a change. */
    method CheckDirty()
      requires Valid()
      modifies this
      ensures Valid()
      ensures lastDirty == (Serialize(nodes, edges) != baselineSerialized)
      ensures old(lastDirty) != lastDirty ==> dirtyReports == old(dirtyReports) + [lastDirty]
      ensures old(lastDirty) == lastDirty ==> dirtyReports == old(dirtyReports)
      ensures nodes == old(nodes) && edges == old(edges) && selectedNodeId == old(selectedNodeId)
      ensures baselineNodes == old(baselineNodes) && baselineEdges == old(baselineEdges)
      ensures baselineSerialized == old(baselineSerialized) && restoreInit == old(restoreInit)
    {
      var isDirty := Serialize(nodes, edges) != baselineSerialized;
      if lastDirty != isDirty {
        lastDirty := isDirty;
        dirtyReports := dirtyReports + [isDirty];
      }
    }

    /** The baseline effect (on mount and on a new baseline key): the
        current canvas becomes the saved state, and the parent hears
        "clean". */
    method ResetBaseline()
      requires Valid()
      modifies this
      ensures Valid()
      ensures baselineNodes == nodes && baselineEdges == edges
      ensures baselineSerialized == Serialize(nodes, edges)
      ensures !lastDirty && dirtyReports == old(dirtyReports) + [false]
      ensures nodes == old(nodes) && edges == old(edges) && selectedNodeId == old(selectedNodeId)
      ensures restoreInit == old(restoreInit)
    {
      baselineNodes := MapSeq(nodes, CloneNode);
      baselineEdges := MapSeq(edges, CloneEdge);
      baselineSerialized := Serialize(baselineNodes, baselineEdges);
      lastDirty := false;
      dirtyReports := dirtyReports + [false];
    }

    /** The restore effect: skipped on mount; afterwards the canvas goes
        back to copies of the baseline and the parent hears "clean". */
    method Restore()
      requires Valid()
      modifies this
      ensures Valid()
      ensures old(restoreInit) ==> !restoreInit && nodes == old(nodes) && edges == old(edges)
                                   && lastDirty == old(lastDirty) && dirtyReports == old(dirtyReports)
      ensures !old(restoreInit) ==>
        && !restoreInit && nodes == baselineNodes && edges == baselineEdges
        && Serialize(nodes, edges) == baselineSerialized
        && !lastDirty && dirtyReports == old(dirtyReports) + [false]
      ensures baselineNodes == old(baselineNodes) && baselineEdges == old(baselineEdges)
      ensures baselineSerialized == old(baselineSerialized) && selectedNodeId == old(selectedNodeId)
    {
      if restoreInit {
        restoreInit := false;
        return;
      }
      nodes := MapSeq(baselineNodes, CloneNode);
      edges := MapSeq(baselineEdges, CloneEdge);
      lastDirty := false;
      dirtyReports := dirtyReports + [false];
    }

    /** A change made on the canvas itself (drag, connect, delete, add). */
    method SetGraph(newNodes: seq<WorkflowNode>, newEdges: seq<WorkflowEdge>)
      requires Valid()
      modifies this
      ensures Valid()
      ensures nodes == newNodes && edges == newEdges
      ensures baselineNodes == old(baselineNodes) && baselineEdges == old(baselineEdges)
      ensures baselineSerialized == old(baselineSerialized) && lastDirty == old(lastDirty)
      ensures dirtyReports == old(dirtyReports) && restoreInit == old(restoreInit)
      ensures selectedNodeId == old(selectedNodeId)
    {
      nodes := newNodes;
      edges := newEdges;
    }

    method Select(id: Option<string>)
      modifies this
      ensures selectedNodeId == id
      ensures nodes == old(nodes) && edges == old(edges)
      ensures baselineNodes == old(baselineNodes) && baselineEdges == old(baselineEdges)
      ensures baselineSerialized == old(baselineSerialized) && lastDirty == old(lastDirty)
      ensures dirtyReports == old(dirtyReports) && restoreInit == old(restoreInit)
    {
      selectedNodeId := id;
    }

    /** The selection effect. */
    method CleanSelection()
      modifies this
      ensures selectedNodeId == CleanedSelection(old(selectedNodeId), nodes)
      ensures nodes == old(nodes) && edges == old(edges)
      ensures baselineNodes == old(baselineNodes) && baselineEdges == old(baselineEdges)
      ensures baselineSerialized == old(baselineSerialized) && lastDirty == old(lastDirty)
      ensures dirtyReports == old(dirtyReports) && restoreInit == old(restoreInit)
    {
      selectedNodeId := CleanedSelection(selectedNodeId, nodes);
    }

    method ChangeAgent(updater: AgentSettings -> AgentSettings)
      requires Valid()
      modifies this
      ensures Valid()
      ensures nodes == AgentChanged(old(nodes), selectedNodeId, updater)
      ensures edges == old(edges) && selectedNodeId == old(selectedNodeId)
      ensures baselineNodes == old(baselineNodes) && baselineEdges == old(baselineEdges)
      ensures baselineSerialized == old(baselineSerialized) && lastDirty == old(lastDirty)
      ensures dirtyReports == old(dirtyReports) && restoreInit == old(restoreInit)
    {
      nodes := AgentChanged(nodes, selectedNodeId, updater);
    }

    method ChangeNodeLabel(newLabel: string)
      requires Valid()
      modifies this
      ensures Valid()
      ensures nodes == NodeLabelChanged(old(nodes), selectedNodeId, newLabel)
      ensures edges == old(edges) && selectedNodeId == old(selectedNodeId)
      ensures baselineNodes == old(baselineNodes) && baselineEdges == old(baselineEdges)
      ensures baselineSerialized == old(baselineSerialized) && lastDirty == old(lastDirty)
      ensures dirtyReports == old(dirtyReports) && restoreInit == old(restoreInit)
    {
      nodes := NodeLabelChanged(nodes, selectedNodeId, newLabel);
    }
  }

  /** After a restore, the dirty effect that follows sends nothing: the
      parent already heard "clean". */
  method RestoreThenCheck(c: WorkflowCanvas)
    requires c.Valid() && !c.restoreInit
    modifies c
    ensures c.Valid() && !c.lastDirty
    ensures c.dirtyReports == old(c.dirtyReports) + [false]
  {
    c.Restore();
    c.CheckDirty();
  }
}
