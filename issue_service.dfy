/**
 The client of the external ticketing service (src/issueservice.rs): check
 the configuration and the project and tracker ids, POST the issue with the
 caller's bearer token, and read the new ticket's `issue_id` back as text.

 The URL setting and the HTTP reply are inputs; the JSON reply is reduced to
 what the code looks at, the `issue_id` field read with `as_i64`.
 */
module IssueService {
  import opened Basics
  import Decimal

  /** `IssueServicePostData`, the JSON body of the POST. */
  datatype PostData = PostData(subject: string, description: string, projectId: i32, trackerId: i32)

  datatype IssueError =
    | MissingUrl
    | ZeroProjectId
    | ZeroTrackerId
    | Transport
    | HttpStatus(status: int)
    | Unreadable
    | NotJson
    | MissingIssueId

  /** `get("issue_id")` followed by `as_i64`: absent (or not an object), present but not an `i64`, or an `i64`. */
  datatype IssueIdField = Absent | NotAnI64 | I64(n: i64)

  /** The reply body: its text could not be read, it is not JSON, or it is JSON with this `issue_id`. */
  datatype ReplyBody = UnreadableBody | NotJsonBody | JsonBody(issueId: IssueIdField)

  datatype IssueReply = Unreachable | Reply(status: int, body: ReplyBody)

  datatype IssuePost = IssuePost(url: string, bearer: string, payload: PostData)

  /**
   The POST that `issue_service_post` sends, if any: the URL setting is
   checked first, then `project_id`, then `tracker_id`.
   */
  function PlanIssuePost(url: Option<string>, data: PostData, token: string): (r: Result<IssuePost, IssueError>)
    ensures url.None? ==> r == Err(MissingUrl)
    ensures url.Some? && data.projectId == 0 ==> r == Err(ZeroProjectId)
    ensures url.Some? && data.projectId != 0 && data.trackerId == 0 ==> r == Err(ZeroTrackerId)
    ensures r.Ok? <==> url.Some? && data.projectId != 0 && data.trackerId != 0
    ensures r.Ok? ==> r.value == IssuePost(url.value, token, data)
  {
    match url
    case None => Err(MissingUrl)
    case Some(u) =>
      if data.projectId == 0 then Err(ZeroProjectId)
      else if data.trackerId == 0 then Err(ZeroTrackerId)
      else Ok(IssuePost(u, token, data))
  }

  /**
   What the ticketing reply means: only a 2xx reply whose JSON has an
   integer `issue_id` succeeds, and the result is that id in decimal.
   A zero id is not refused.
   */
  function InterpretIssueReply(reply: IssueReply): (r: Result<string, IssueError>)
    ensures r.Ok? <==> reply.Reply? && IsSuccess(reply.status) && reply.body.JsonBody? && reply.body.issueId.I64?
    ensures r.Ok? ==> r.value == Decimal.Render(reply.body.issueId.n)
    ensures r.Ok? ==> Decimal.Parse(r.value) == Some(reply.body.issueId.n as int)
    ensures reply.Reply? && !IsSuccess(reply.status) ==> r == Err(HttpStatus(reply.status))
  {
    match reply
    case Unreachable => Err(Transport)
    case Reply(status, body) =>
      if !IsSuccess(status) then Err(HttpStatus(status))
      else match body
        case UnreadableBody => Err(Unreadable)
        case NotJsonBody => Err(NotJson)
        case JsonBody(field) =>
          match field
          case I64(n) =>
            Decimal.RenderRoundTrip(n);
            Ok(Decimal.Render(n))
          case _ => Err(MissingIssueId)
  }

  /**
   `issue_service_post`: a request refused by the checks fails with that
   error; otherwise the reply decides, and a success is the service's
   integer `issue_id` as Rust renders it.
   */
  function IssueServicePost(url: Option<string>, data: PostData, token: string, reply: IssueReply)
    : (r: Result<string, IssueError>)
    ensures PlanIssuePost(url, data, token).Err? ==> r == Err(PlanIssuePost(url, data, token).error)
    ensures r.Ok? <==> url.Some? && data.projectId != 0 && data.trackerId != 0 &&
                       reply.Reply? && IsSuccess(reply.status) && reply.body.JsonBody? && reply.body.issueId.I64?
    ensures r.Ok? ==> r.value == Decimal.Render(reply.body.issueId.n) &&
                      Decimal.Parse(r.value) == Some(reply.body.issueId.n as int)
  {
    match PlanIssuePost(url, data, token)
    case Err(e) => Err(e)
    case Ok(_) => InterpretIssueReply(reply)
  }

  /** A rejected request is never sent: the error is the same whatever the service would reply. */
  lemma NoPostOnRejection(url: Option<string>, data: PostData, token: string, reply1: IssueReply, reply2: IssueReply)
    requires url.None? || data.projectId == 0 || data.trackerId == 0
    ensures IssueServicePost(url, data, token, reply1).Err?
    ensures IssueServicePost(url, data, token, reply1) == IssueServicePost(url, data, token, reply2)
  {
  }

  /** The code makes no non-zero check on the returned id: an `issue_id` of 0 is a success "0". */
  lemma ZeroIssueIdAccepted(url: string, data: PostData, token: string, status: int)
    requires data.projectId != 0 && data.trackerId != 0 && IsSuccess(status)
    ensures IssueServicePost(Some(url), data, token, Reply(status, JsonBody(I64(0)))) == Ok("0")
  {
  }
}
