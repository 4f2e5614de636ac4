/** The "New Agent" form: the agent id derived from the typed name, the
    agent's full identity name on the node, and the creation request. */
module AddAgent {
  import opened Wrappers
  import opened Text
  import opened Session

  /** The characters the id pattern keeps: ASCII letters, digits and '_'. */
  predicate IsWordChar(c: char) {
    'a' <= c <= 'z' || 'A' <= c <= 'Z' || '0' <= c <= '9' || c == '_'
  }

  /** The characters an agent id is made of. */
  predicate IsAgentIdChar(c: char) {
    'a' <= c <= 'z' || '0' <= c <= '9' || c == '_'
  }

  /** The global replacement of every character outside the word class
      by '_'. */
  function Underscored(s: string): (r: string)
    ensures |r| == |s|
    ensures forall i :: 0 <= i < |s| ==> r[i] == (if IsWordChar(s[i]) then s[i] else '_')
  {
    if s == [] then [] else [if IsWordChar(s[0]) then s[0] else '_'] + Underscored(s[1..])
  }

  /** The agent id for a name: one character per character of the name,
      each a lower-case letter, a digit or '_'; word characters are kept
      (lower-cased), every other character becomes '_'. Characters are
      Unicode scalar values here, so one outside the Basic Multilingual
      Plane gives one '_', not one per UTF-16 half. */
  function AgentId(name: string): (r: string)
    ensures |r| == |name|
    ensures forall i :: 0 <= i < |r| ==> IsAgentIdChar(r[i])
    ensures forall i :: 0 <= i < |name| && IsWordChar(name[i]) ==> r[i] == LowerChar(name[i])
    ensures forall i :: 0 <= i < |name| && !IsWordChar(name[i]) ==> r[i] == '_'
  {
    Lower(Underscored(name))
  }

  /** A string is its own id exactly when it is made of id characters. */
  lemma AgentIdFixedPoints(s: string)
    ensures AgentId(s) == s <==> forall i :: 0 <= i < |s| ==> IsAgentIdChar(s[i])
  {
    if forall i :: 0 <= i < |s| ==> IsAgentIdChar(s[i]) {
      var r := AgentId(s);
      forall i | 0 <= i < |s|
        ensures r[i] == s[i]
      {
        assert IsWordChar(s[i]);
      }
    }
  }

  /** Deriving the id from an id changes nothing. */
  lemma AgentIdIdempotent(name: string)
    ensures AgentId(AgentId(name)) == AgentId(name)
  {
    AgentIdFixedPoints(AgentId(name));
  }

  const AgentSegment := "/main/agent/"

  /** `full_identity_name`: the node identity, the main profile's agent
      path, then the id. */
  function FullIdentityName(identity: string, agentId: string): (r: string)
    ensures |r| == |identity| + |AgentSegment| + |agentId|
    ensures StartsWith(r, identity) && EndsWith(r, agentId)
  {
    var r := identity + AgentSegment + agentId;
    assert r[|r| - |agentId|..] == agentId;
    r
  }

  /** The id is the last '/'-separated segment of the full identity name,
      as it contains no '/'. */
  lemma {:induction false} AgentIdIsLastSegment(identity: string, name: string)
    ensures AfterLast(FullIdentityName(identity, AgentId(name)), '/') == AgentId(name)
  {
    var id := AgentId(name);
    var s := FullIdentityName(identity, id);
    var p := identity + AgentSegment;
    assert s == p + id;
    var r := AfterLast(s, '/');
    assert s[|p| - 1] == '/';
    forall k | |p| <= k < |s|
      ensures s[k] != '/'
    {
      assert s[k] == id[k - |p|];
    }
    assert |r| == |id|;
    assert r == s[|p|..];
  }

  /** The agent-creation request. The remaining fields are the product's
      fixed defaults and are not modelled. */
  datatype CreateAgentRequest = CreateAgentRequest(
    nodeAddress: string, token: string, agentId: string, fullIdentityName: string, name: string,
    llmProviderId: string)

  /** `submit`: nothing without a session; otherwise the agent is created
      under the derived id, with the default model provider (or none). */
  function SubmitRequest(auth: Option<Auth>, name: string, defaultAgentId: Option<string>): (r: Option<CreateAgentRequest>)
    ensures r.None? <==> auth.None?
    ensures r.Some? ==>
      && r.value.agentId == AgentId(name)
      && r.value.fullIdentityName == FullIdentityName(auth.value.shinkaiIdentity, r.value.agentId)
      && r.value.name == name
      && r.value.llmProviderId == defaultAgentId.GetOr("")
      && r.value.nodeAddress == auth.value.nodeAddress && r.value.token == auth.value.apiKey
  {
    match auth
    case None => None
    case Some(a) =>
      var id := AgentId(name);
      Some(CreateAgentRequest(a.nodeAddress, a.apiKey, id, FullIdentityName(a.shinkaiIdentity, id), name,
                              defaultAgentId.GetOr("")))
  }

  /** Two names that differ only in letter case or in which non-word
      characters they use create the same agent id. */
  lemma SameIdForEquivalentNames(a: string, b: string)
    requires |a| == |b|
    requires forall i :: 0 <= i < |a| ==> IsWordChar(a[i]) == IsWordChar(b[i])
    requires forall i :: 0 <= i < |a| && IsWordChar(a[i]) ==> LowerChar(a[i]) == LowerChar(b[i])
    ensures AgentId(a) == AgentId(b)
  {
  }
}
