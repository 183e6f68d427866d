/**
 * The closed taxonomy of API problems and the classifier that maps an
 * apisauce response to one of them, or to nothing.
 */
module ApiProblem {
  import opened Wrappers
  import opened Apisauce

  /** The `kind` tags of the `GeneralApiProblem` union. */
  datatype Kind = Timeout | CannotConnect | Server | Unauthorized | Forbidden | NotFound | Rejected | Unknown | BadData

  /** The string each kind carries in its `kind` field. */
  function KindName(k: Kind): string {
    match k
    case Timeout => "timeout"
    case CannotConnect => "cannot-connect"
    case Server => "server"
    case Unauthorized => "unauthorized"
    case Forbidden => "forbidden"
    case NotFound => "not-found"
    case Rejected => "rejected"
    case Unknown => "unknown"
    case BadData => "bad-data"
  }

  /** The kinds whose union member declares `temporary: true`; the others have no such field. */
  predicate IsTemporary(k: Kind) {
    k == Timeout || k == CannotConnect || k == Unknown
  }

  /** The fixed message the classifier falls back on for each kind it produces. */
  function DefaultMessage(k: Kind): (m: string)
    requires k != BadData
    ensures m != ""
  {
    match k
    case CannotConnect => "Cannot connect to server"
    case Timeout => "Timeout"
    case Server => "Server error"
    case Unknown => "Unknown error"
    case Unauthorized => "Unauthorized"
    case Forbidden => "Forbidden"
    case NotFound => "Not found"
    case Rejected => "Rejected"
  }

  /**
   * A member of the union. `temporary` stands for the optional field: true
   * when it is present (it is then always `true`), false when it is absent.
   */
  datatype GeneralApiProblem = GeneralApiProblem(kind: Kind, temporary: bool, message: string)

  /** The value has the shape its union member declares. */
  predicate ConformsToUnion(p: GeneralApiProblem) {
    p.temporary == IsTemporary(p.kind)
  }

  /** The problem tags the classifier's switch handles with a problem. */
  const ClassifiedTags: set<string> :=
    {"CONNECTION_ERROR", "NETWORK_ERROR", "TIMEOUT_ERROR", "SERVER_ERROR", "UNKNOWN_ERROR", "CLIENT_ERROR"}

  /** `response.data?.message || fallback`: the body message when it is a non-empty string. */
  function MessageOr(response: ApiResponse, fallback: string): (m: string)
    ensures m == fallback || (response.data.Some? && response.data.value.message == Some(m))
    ensures m == fallback <== response.data.None? || response.data.value.message.None?
    ensures m == fallback <== response.data.Some? && response.data.value.message == Some("")
    ensures response.data.Some? && response.data.value.message.Some? && response.data.value.message.value != "" ==>
      m == response.data.value.message.value
  {
    match response.data
    case Some(ResponseBody(Some(m), _)) => if m != "" then m else fallback
    case _ => fallback
  }

  /** The inner switch on `response.status` for a client error. */
  function ClientErrorKind(status: Option<int>): (k: Kind)
    ensures k in {Unauthorized, Forbidden, NotFound, Rejected}
    ensures k == Unauthorized <==> status == Some(401)
    ensures k == Forbidden <==> status == Some(403)
    ensures k == NotFound <==> status == Some(404)
    ensures k == Rejected <==> status !in {Some(401), Some(403), Some(404)}
  {
    match status
    case Some(401) => Unauthorized
    case Some(403) => Forbidden
    case Some(404) => NotFound
    case _ => Rejected
  }

  /** `getGeneralApiProblem`: the problem a response stands for, or null. */
  function GetGeneralApiProblem(response: ApiResponse): (r: Option<GeneralApiProblem>)
    ensures r.Some? <==> response.problem.Some? && response.problem.value in ClassifiedTags
    ensures r.Some? ==> ConformsToUnion(r.value) && r.value.kind != BadData
    ensures r.Some? ==> r.value.message == MessageOr(response, DefaultMessage(r.value.kind))
    ensures r.Some? ==> r.value.message != ""
  {
    match response.problem
    case Some("CONNECTION_ERROR") =>
      Some(GeneralApiProblem(CannotConnect, true, MessageOr(response, "Cannot connect to server")))
    case Some("NETWORK_ERROR") =>
      Some(GeneralApiProblem(CannotConnect, true, MessageOr(response, "Cannot connect to server")))
    case Some("TIMEOUT_ERROR") =>
      Some(GeneralApiProblem(Timeout, true, MessageOr(response, "Timeout")))
    case Some("SERVER_ERROR") =>
      Some(GeneralApiProblem(Server, false, MessageOr(response, "Server error")))
    case Some("UNKNOWN_ERROR") =>
      Some(GeneralApiProblem(Unknown, true, MessageOr(response, "Unknown error")))
    case Some("CLIENT_ERROR") =>
      var kind := ClientErrorKind(response.status);
      Some(GeneralApiProblem(kind, false, MessageOr(response, DefaultMessage(kind))))
    case Some("CANCEL_ERROR") => None
    case _ => None
  }

  /** The classification table, one line per problem tag. */
  lemma ClassificationTable(response: ApiResponse)
    ensures response.problem in {Some("CONNECTION_ERROR"), Some("NETWORK_ERROR")} ==>
      GetGeneralApiProblem(response) == Some(GeneralApiProblem(CannotConnect, true, MessageOr(response, "Cannot connect to server")))
    ensures response.problem == Some("TIMEOUT_ERROR") ==>
      GetGeneralApiProblem(response) == Some(GeneralApiProblem(Timeout, true, MessageOr(response, "Timeout")))
    ensures response.problem == Some("SERVER_ERROR") ==>
      GetGeneralApiProblem(response) == Some(GeneralApiProblem(Server, false, MessageOr(response, "Server error")))
    ensures response.problem == Some("UNKNOWN_ERROR") ==>
      GetGeneralApiProblem(response) == Some(GeneralApiProblem(Unknown, true, MessageOr(response, "Unknown error")))
    ensures response.problem == Some("CLIENT_ERROR") ==>
      GetGeneralApiProblem(response).Some? && GetGeneralApiProblem(response).value.kind == ClientErrorKind(response.status)
    ensures response.problem == Some("CANCEL_ERROR") || response.problem.None? ==>
      GetGeneralApiProblem(response).None?
  {
  }

  /** A connection failure with no body gives the spelled-out problem. */
  lemma ConnectionFailureScenario()
    ensures GetGeneralApiProblem(ApiResponse(false, Some("CONNECTION_ERROR"), None, None))
         == Some(GeneralApiProblem(CannotConnect, true, "Cannot connect to server"))
  {
  }

  /** A 403 whose body says "Account frozen" is `forbidden` with that message. */
  lemma ForbiddenScenario()
    ensures GetGeneralApiProblem(ApiResponse(false, Some("CLIENT_ERROR"), Some(403), Some(ResponseBody(Some("Account frozen"), None))))
         == Some(GeneralApiProblem(Forbidden, false, "Account frozen"))
  {
  }
}
