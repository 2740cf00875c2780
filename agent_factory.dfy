/** The agent factory: a switch from a type tag to one of six agent kinds.
    Only the dispatch is modelled; an agent is its kind, id and name. */
module AgentFactory {
  import opened Wrappers

  datatype AgentKind =
    | ChatAgent
    | DocumentAnalysisAgent
    | OutlineGenerationAgent
    | ContentStructureAgent
    | SectionWritingAgent
    | ContentIntegrationAgent

  datatype Agent = Agent(kind: AgentKind, agentId: string, agentName: string)

  /** The `ArgumentException` thrown for a tag the switch does not know. */
  datatype ArgumentException = ArgumentException(message: string)

  /** The tag each kind is registered under (its class name). */
  function TagOf(kind: AgentKind): string {
    match kind
    case ChatAgent => "ChatAgent"
    case DocumentAnalysisAgent => "DocumentAnalysisAgent"
    case OutlineGenerationAgent => "OutlineGenerationAgent"
    case ContentStructureAgent => "ContentStructureAgent"
    case SectionWritingAgent => "SectionWritingAgent"
    case ContentIntegrationAgent => "ContentIntegrationAgent"
  }

  /** `CreateAgent`: exact, case-sensitive matching of the tag; a null tag
      falls to the default branch and prints as the empty string. */
  function CreateAgent(agentType: Option<string>, agentId: string, agentName: string)
    : (r: Result<Agent, ArgumentException>)
    ensures r.Ok? ==> r.value.agentId == agentId && r.value.agentName == agentName
    ensures r.Ok? ==> agentType == Some(TagOf(r.value.kind))
    ensures r.Err? ==> r.error == ArgumentException("Unknown agent type: " + agentType.GetOr(""))
  {
    match agentType
    case None => Err(ArgumentException("Unknown agent type: "))
    case Some(tag) =>
      if tag == "ChatAgent" then Ok(Agent(ChatAgent, agentId, agentName))
      else if tag == "DocumentAnalysisAgent" then Ok(Agent(DocumentAnalysisAgent, agentId, agentName))
      else if tag == "OutlineGenerationAgent" then Ok(Agent(OutlineGenerationAgent, agentId, agentName))
      else if tag == "ContentStructureAgent" then Ok(Agent(ContentStructureAgent, agentId, agentName))
      else if tag == "SectionWritingAgent" then Ok(Agent(SectionWritingAgent, agentId, agentName))
      else if tag == "ContentIntegrationAgent" then Ok(Agent(ContentIntegrationAgent, agentId, agentName))
      else Err(ArgumentException("Unknown agent type: " + tag))
  }

  /** Every kind is reachable through its own tag, and the tags are distinct,
      so the tag-to-kind table is one-to-one. */
  lemma CreateFromTag(kind: AgentKind, agentId: string, agentName: string)
    ensures CreateAgent(Some(TagOf(kind)), agentId, agentName) == Ok(Agent(kind, agentId, agentName))
  {
  }

  /** A tag is accepted exactly when it is the tag of some kind. */
  lemma AcceptedIffRegistered(agentType: string, agentId: string, agentName: string)
    ensures CreateAgent(Some(agentType), agentId, agentName).Ok?
            <==> exists kind :: TagOf(kind) == agentType
  {
    if exists kind :: TagOf(kind) == agentType {
      var kind :| TagOf(kind) == agentType;
      CreateFromTag(kind, agentId, agentName);
    }
  }

  /** Matching is case-sensitive: a lower-cased tag is unknown. */
  lemma LowerCaseTagRejected(agentId: string, agentName: string)
    ensures CreateAgent(Some("chatagent"), agentId, agentName).Err?
  {
    var tag := "chatagent";
    assert tag[0] == 'c';
    forall kind: AgentKind ensures TagOf(kind) != tag {
      assert TagOf(kind)[0] != 'c';
    }
  }
}
