/** The domain records of gadjit (an entitlement, the person requesting it, the
    access request joining them) and the three plugin capabilities: an
    identity-governance (IGA) connector, a language model (LLM) and a scorer.

    The records are values: their fields are set once, at construction. Text
    fields the source documents as strings but may receive as `None` from the
    APIs are `Option<string>`; fields that are only carried along keep the raw
    API value as `Json`. */
module Models {
  import opened Wrappers
  import opened Dicts
  import opened JsonValue

  /** One member of an entitlement, as the connector reports it (the value
      stored under the member's e-mail address). */
  datatype MemberProfile = MemberProfile(
    id: Option<string>,
    manager: Json,
    mgmtChain: Json,
    title: Option<string>,
    department: Option<string>,
    titleAndDepartment: string,
    organizationalUnit: Option<string>,
    globalJobLevel: Json)

  /** A group or role that can be requested, with its current members keyed
      by e-mail address. */
  datatype Entitlement = Entitlement(
    id: Option<string>,
    parentAppId: Option<string>,
    name: Option<string>,
    description: Option<string>,
    members: Dict<string, MemberProfile>)

  /** The person asking for access. One organizational-unit field serves both
      the connector, which fills it, and the scorer, which reads it. */
  datatype Requester = Requester(
    id: Option<string>,
    mgmtChain: Json,
    manager: Json,
    managerId: Json,
    title: Option<string>,
    department: Option<string>,
    titleAndDepartment: string,
    globalJobLevel: Json,
    organizationalUnit: Option<string>,
    email: Option<string>)

  datatype AccessRequest = AccessRequest(
    id: Option<string>,
    description: Option<string>,
    duration: Json,
    requester: Requester,
    entitlement: Entitlement,
    igaMetadata: Dict<string, Json>)

  /** `Requester(...)`: every argument is stored as given and the combined
      field is rendered as `f"{title}, {department}"`. */
  function NewRequester(
    id: Option<string>, mgmtChain: Json, manager: Json, managerId: Json,
    title: Option<string>, department: Option<string>, globalJobLevel: Json,
    organizationalUnit: Option<string>, email: Option<string>): (r: Requester)
    ensures r.id == id && r.mgmtChain == mgmtChain && r.manager == manager
    ensures r.managerId == managerId && r.title == title && r.department == department
    ensures r.globalJobLevel == globalJobLevel && r.organizationalUnit == organizationalUnit
    ensures r.email == email
    ensures r.titleAndDepartment == Render(title) + ", " + Render(department)
  {
    Requester(id, mgmtChain, manager, managerId, title, department,
              Render(title) + ", " + Render(department), globalJobLevel,
              organizationalUnit, email)
  }

  /** The combined field keeps the title in front and the department behind
      the separator, so both can be read back from it. */
  lemma TitleAndDepartmentParts(
    id: Option<string>, mgmtChain: Json, manager: Json, managerId: Json,
    title: Option<string>, department: Option<string>, globalJobLevel: Json,
    organizationalUnit: Option<string>, email: Option<string>)
    ensures var r := NewRequester(id, mgmtChain, manager, managerId, title, department,
                                  globalJobLevel, organizationalUnit, email);
            var n := |Render(title)|;
            |r.titleAndDepartment| == n + 2 + |Render(department)|
            && r.titleAndDepartment[..n] == Render(title)
            && r.titleAndDepartment[n..n + 2] == ", "
            && r.titleAndDepartment[n + 2..] == Render(department)
  {
    var t, d := Render(title), Render(department);
    assert (t + ", " + d)[..|t|] == t;
    assert (t + ", " + d)[|t|..|t| + 2] == ", ";
    assert (t + ", " + d)[|t| + 2..] == d;
  }

  /** `AccessRequest(...)`: `iga_metadata` defaults to an empty mapping. */
  function NewAccessRequest(
    id: Option<string>, description: Option<string>, duration: Json,
    requester: Requester, entitlement: Entitlement,
    igaMetadata: Option<Dict<string, Json>>): (r: AccessRequest)
    ensures r.id == id && r.description == description && r.duration == duration
    ensures r.requester == requester && r.entitlement == entitlement
    ensures igaMetadata.None? ==> r.igaMetadata == []
    ensures igaMetadata.Some? ==> r.igaMetadata == igaMetadata.value
  {
    AccessRequest(id, description, duration, requester, entitlement, igaMetadata.GetOr([]))
  }

  // ---------------------------------------------------------------------------
  // Plugin capabilities

  /** The base IGA plugin: it keeps its configuration and implements none of
      its operations. */
  datatype BaseIgaPlugin = BaseIgaPlugin(config: Json)
  {
    function RetrieveRequests(event: Json): (r: Result<seq<AccessRequest>>)
      ensures r == Err(NotImplementedError("Plugin must implement the retrieve_requests method."))
    {
      Err(NotImplementedError("Plugin must implement the retrieve_requests method."))
    }

    function CommentRequest(request: AccessRequest, comment: string): (r: Result<()>)
      ensures r == Err(NotImplementedError("Plugin must implement the comment_request method."))
    {
      Err(NotImplementedError("Plugin must implement the comment_request method."))
    }

    function ApproveRequest(request: AccessRequest): (r: Result<()>)
      ensures r == Err(NotImplementedError("Plugin must implement the approve_request method."))
    {
      Err(NotImplementedError("Plugin must implement the approve_request method."))
    }

    function DenyRequest(request: AccessRequest): (r: Result<()>)
      ensures r == Err(NotImplementedError("Plugin must implement the deny_request method."))
    {
      Err(NotImplementedError("Plugin must implement the deny_request method."))
    }
  }

  /** The profile field an overlap query compares. */
  datatype Field = TitleAndDepartment | OrganizationalUnit

  /** What a prompt pair sent to the language model is built from. The prompt
      texts are fixed templates filled with exactly these values. */
  datatype Prompt =
    | OverlapPrompt(field: Field, fieldValue: Option<string>, listing: string)
    | RelationshipPrompt(titleAndDepartment: string, name: Option<string>, description: Option<string>)

  /** A language model: the base plugin, or one that answers prompts. An
      answer is a string, `None` for an incomplete answer, or an error raised
      by the provider. */
  datatype LlmPlugin =
    | BaseLlmPlugin(config: Json)
    | AnsweringLlmPlugin(config: Json, answer: Prompt -> Result<Option<string>>)
  {
    function Query(p: Prompt): (r: Result<Option<string>>)
      ensures BaseLlmPlugin? ==> r == Err(NotImplementedError("Plugin must implement the query method."))
      ensures AnsweringLlmPlugin? ==> r == answer(p)
    {
      match this
      case BaseLlmPlugin(_) => Err(NotImplementedError("Plugin must implement the query method."))
      case AnsweringLlmPlugin(_, answer) => answer(p)
    }
  }

  /** The base scoring plugin: it keeps its configuration and does not score. */
  datatype BaseScoringPlugin = BaseScoringPlugin(config: Json)
  {
    function Score(request: AccessRequest): (r: Result<real>)
      ensures r == Err(NotImplementedError("Plugin must implement the score method."))
    {
      Err(NotImplementedError("Plugin must implement the score method."))
    }
  }
}
