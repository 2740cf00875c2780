/** The outline generation agent: builds a fresh outline from the structured
    requirement text, or an error-shaped outline when there is none. The
    outline id (a new Guid in the agent) is supplied by the caller. */
module OutlineGeneration {
  import opened Wrappers
  import opened Strings

  const Draft := "Draft"
  const Error := "Error"

  /** How many characters of the requirement text a draft repeats. */
  const EchoLimit := 75

  const EmptyRequirementContent := "Error: Structured requirement info was empty. Cannot generate outline."
  const ContentLead := "Simulated Outline based on: '"
  const ContentTail := "...'\n" + "1. Introduction\n" + "2. Key Requirements Analysis\n"
                       + "3. Proposed Solution Outline\n" + "4. Conclusion"

  datatype TenderOutline = TenderOutline(
    outlineId: string,
    projectId: string,
    outlineContent: string,
    version: int,
    status: string,
    userFeedback: string)

  /** The part of the requirement text a draft repeats: its first
      min(length, 75) characters. */
  function Echo(requirement: string): (e: string)
    ensures |e| <= EchoLimit && |e| <= |requirement|
    ensures e == requirement[..|e|]
    ensures |requirement| <= EchoLimit ==> e == requirement
    ensures EchoLimit <= |requirement| ==> |e| == EchoLimit
  {
    requirement[..Min(|requirement|, EchoLimit)]
  }

  /** `GenerateOutlineAsync`. */
  function GenerateOutline(outlineId: string, projectId: string, structuredRequirementInfo: Option<string>)
    : (o: TenderOutline)
    ensures o.outlineId == outlineId && o.projectId == projectId
    ensures o.version == 1 && o.userFeedback == ""
    ensures o.status == Error <==> IsNullOrEmpty(structuredRequirementInfo)
    ensures o.status == Draft <==> !IsNullOrEmpty(structuredRequirementInfo)
    ensures o.status == Error ==> o.outlineContent == EmptyRequirementContent
  {
    if IsNullOrEmpty(structuredRequirementInfo) then
      TenderOutline(outlineId, projectId, EmptyRequirementContent, 1, Error, "")
    else
      TenderOutline(outlineId, projectId, ContentLead + Echo(structuredRequirementInfo.value) + ContentTail,
                    1, Draft, "")
  }

  /** Reads the repeated requirement text back out of an outline's content;
      None when the content does not have the draft's shape. */
  function EchoedRequirement(content: string): Option<string> {
    if |ContentLead| + |ContentTail| <= |content|
       && content[..|ContentLead|] == ContentLead
       && content[|content| - |ContentTail|..] == ContentTail
    then Some(content[|ContentLead|..|content| - |ContentTail|])
    else None
  }

  /** A draft's content is the fixed lead, the echoed prefix of the
      requirement text and the four fixed headings, and the echo can be read
      back out of it. The error content has no such shape. */
  lemma DraftContentRoundTrip(outlineId: string, projectId: string, requirement: string)
    requires requirement != ""
    ensures var o := GenerateOutline(outlineId, projectId, Some(requirement));
      EchoedRequirement(o.outlineContent) == Some(Echo(requirement))
    ensures EchoedRequirement(EmptyRequirementContent).None?
  {
    var e := Echo(requirement);
    var c := ContentLead + e + ContentTail;
    assert c[..|ContentLead|] == ContentLead;
    assert c[|c| - |ContentTail|..] == ContentTail;
    assert c[|ContentLead|..|c| - |ContentTail|] == e;
    assert |EmptyRequirementContent| < |ContentLead| + |ContentTail|;
  }
}
