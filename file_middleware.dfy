/**
 * The guard in front of a single-file route (`fileMiddleware`): it loads the file
 * named by `:id` onto the request, and passes the request on only when the file
 * exists and belongs to the requester.
 */
module FileMiddleware {
  import opened Wrappers
  import opened FileController

  /** What `findById` did: found a file or nothing, or threw an error with this name. */
  datatype Lookup = Found(file: FileRecord) | Missing | Threw(errorName: string)

  /** The middleware's decision: answer the request itself, or call `next`. */
  datatype Decision = Respond(response: Response) | Next

  const NotFound: Response := Response(404, Message("File Not Found"))
  const NotAuthorized: Response := Response(403, Message("Not Authorized"))
  const ErrorOccurred: Response := Response(500, Message("Error Occurred"))

  /**
   * Existence is decided before ownership; a cast error reads as a missing file and any
   * other error as a server error. `next` is called exactly for an existing file of the requester.
   */
  function Decide(user: UserId, lookup: Lookup): (d: Decision)
    ensures d.Next? <==> lookup.Found? && lookup.file.author == user
    ensures lookup.Missing? ==> d == Respond(NotFound)
    ensures lookup.Found? && lookup.file.author != user ==> d == Respond(NotAuthorized)
    ensures lookup.Threw? ==> d == Respond(if lookup.errorName == "CastError" then NotFound else ErrorOccurred)
  {
    match lookup
    case Missing => Respond(NotFound)
    case Found(file) => if user != file.author then Respond(NotAuthorized) else Next
    case Threw(name) => Respond(if name == "CastError" then NotFound else ErrorOccurred)
  }

  /** The lookup against the file table: text that is not an id throws a cast error. */
  function LookupIn(s: Store, rid: RequestId): (l: Lookup)
    ensures l.Threw? <==> rid.NotAnId?
    ensures l.Found? <==> rid.Id? && rid.id in s.files
    ensures l.Found? ==> l.file == s.files[rid.id]
  {
    match FindById(s, rid)
    case Err(_) => Threw("CastError")
    case Ok(found) => if found.Some? then Found(found.value) else Missing
  }

  /** The same guard decides exactly as `getFileById` does, except that it forwards instead of answering 200. */
  lemma AgreesWithGetFileById(s: Store, user: UserId, rid: RequestId)
    requires rid.Id?
    ensures var d := Decide(user, LookupIn(s, rid));
      d.Next? <==> LookupOutcome(s, user, rid).status == 200
    ensures var d := Decide(user, LookupIn(s, rid));
      d.Respond? ==> d.response == LookupOutcome(s, user, rid)
  {
  }

  /**
   * For text that is not an id the two disagree: the guard reads the cast error as a
   * missing file and answers 404, while `getFileById` answers 500.
   */
  lemma MalformedIdAnswersDiffer(s: Store, user: UserId, rid: RequestId)
    requires rid.NotAnId?
    ensures Decide(user, LookupIn(s, rid)) == Respond(NotFound)
    ensures LookupOutcome(s, user, rid).status == 500
  {
  }

  /** The request as the middleware sees it. */
  class Request {
    const user: UserId
    const id: RequestId
    /** `req.file`: unset until the lookup returns, then the file or null. */
    var file: Option<Option<FileRecord>>

    constructor (user: UserId, id: RequestId)
      ensures this.user == user && this.id == id && file.None?
    {
      this.user := user;
      this.id := id;
      file := None;
    }
  }

  /** The middleware: `req.file` is assigned when the lookup returns, even when the answer is 403. */
  method Guard(req: Request, lookup: Lookup) returns (d: Decision)
    modifies req
    ensures d == Decide(req.user, lookup)
    ensures req.file == match lookup
                        case Found(file) => Some(Some(file))
                        case Missing => Some(None)
                        case Threw(_) => old(req.file)
  {
    match lookup {
      case Threw(name) =>
        return Respond(if name == "CastError" then NotFound else ErrorOccurred);
      case Missing =>
        req.file := Some(None);
        return Respond(NotFound);
      case Found(file) =>
        req.file := Some(Some(file));
        if req.user != file.author {
          return Respond(NotAuthorized);
        }
    }
    d := Next;
  }
}
