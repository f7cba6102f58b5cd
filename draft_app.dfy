/**
 * Gallery state of the draft client (frontend_raw/App.tsx), which talks to
 * the draft server: the same list, loading flag and screen as the final
 * client, but a save posts `{ imageData, message }` as JSON, the success
 * body is the record itself, and an error body carries its reason in `error`.
 */
module DraftApp {
  import opened Wrappers
  import opened Web
  import opened AppShell
  import DraftServer

  /** The draft client's record type, the one the draft server stores. */
  type HeartMemory = DraftServer.Memory

  /** The body of a failed request; only its `error` field is read. */
  datatype ErrorReply = ErrorReply(error: Option<string>)

  /** The JSON the save sends: `JSON.stringify({ imageData, message })`. */
  function SaveRequest(imageData: string, message: string): (body: DraftServer.PostBody)
    ensures body.imageData == Some(imageData) && body.message == Some(message)
  {
    DraftServer.PostBody(Some(imageData), Some(message))
  }

  /** What `handleSaveMemory` ends with: the reply body as the new record, or the message of the error it caught. */
  function SaveOutcome(reply: Reply<HeartMemory, ErrorReply>): (r: Result<HeartMemory, string>)
    ensures r.Ok? <==> reply.OkResponse? && reply.body.Decoded?
    ensures r.Ok? ==> r.value == reply.body.value
    ensures reply.NotOk? && reply.errorBody.Decoded? ==>
      r == Err(SaveErrorText(reply.errorBody.value.error))
    ensures reply.NetworkError? ==> r == Err(reply.reason)
    ensures (reply.NotOk? && reply.errorBody.Undecodable?) ==> r == Err(reply.errorBody.reason)
    ensures (reply.OkResponse? && reply.body.Undecodable?) ==> r == Err(reply.body.reason)
  {
    match reply
    case NetworkError(reason) => Err(reason)
    case NotOk(Undecodable(reason)) => Err(reason)
    case NotOk(Decoded(errorData)) => Err(SaveErrorText(errorData.error))
    case OkResponse(Undecodable(reason)) => Err(reason)
    case OkResponse(Decoded(newMemory)) => Ok(newMemory)
  }

  /**
   * How the draft server's answer reaches the client: a 2xx status is `ok`,
   * and the body is the server's JSON, decoded as the client expects it.
   * The client would prepend whatever JSON a 2xx reply carries; a record is
   * the only 2xx body `DraftServer.PostMemory` sends, so the `Undecodable`
   * branch below is never reached from the draft server.
   */
  function ClientView(reply: DraftServer.HttpReply): (r: Reply<HeartMemory, ErrorReply>)
    ensures 200 <= reply.status < 300 && reply.body.MemoryJson? ==> r == OkResponse(Decoded(reply.body.memory))
    ensures !(200 <= reply.status < 300) && reply.body.ErrorJson? ==> r == NotOk(Decoded(ErrorReply(Some(reply.body.error))))
  {
    if 200 <= reply.status < 300 then
      match reply.body
      case MemoryJson(m) => OkResponse(Decoded(m))
      case _ => OkResponse(Undecodable("the body is not a record"))
    else
      match reply.body
      case ErrorJson(e) => NotOk(Decoded(ErrorReply(Some(e))))
      case _ => NotOk(Decoded(ErrorReply(None)))
  }

  class App {
    var currentPage: Page
    var memories: seq<HeartMemory>
    var isLoading: bool

    /** The initial `useState` values. */
    constructor ()
      ensures currentPage == MainScreen && memories == [] && isLoading
    {
      currentPage, memories, isLoading := MainScreen, [], true;
    }

    /** `fetchMemories` up to its `await fetch(...)`: the loading flag is raised. */
    method BeginFetch()
      modifies this
      ensures isLoading
      ensures memories == old(memories) && currentPage == old(currentPage)
    {
      isLoading := true;
    }

    /**
     * `fetchMemories` after the reply arrives: the list is replaced wholesale
     * by the server's list, or emptied on any failure, and loading ends.
     */
    method CompleteFetch(reply: Reply<seq<HeartMemory>, string>)
      modifies this
      ensures !isLoading
      ensures memories == FetchedList(reply)
      ensures currentPage == old(currentPage)
    {
      match reply {
        case OkResponse(Decoded(data)) =>
          memories := data;
        case _ =>
          memories := [];
      }
      isLoading := false;
    }

    /**
     * `handleSaveMemory(imageData, message)`: post the JSON body, then, once the reply arrives, a
     * success puts the returned record in front of the list and opens the
     * gallery; a failure changes nothing and raises an alert.
     */
    method HandleSaveMemory(imageData: string, message: string, reply: Reply<HeartMemory, ErrorReply>)
      returns (sent: DraftServer.PostBody, alert: Option<string>)
      modifies this
      ensures sent == SaveRequest(imageData, message)
      ensures SaveOutcome(reply).Ok? ==>
        && memories == [SaveOutcome(reply).value] + old(memories)
        && currentPage == SquareScreen
        && alert == None
      ensures SaveOutcome(reply).Err? ==>
        && memories == old(memories)
        && currentPage == old(currentPage)
        && alert == Some(SaveAlert(SaveOutcome(reply).error))
      ensures isLoading == old(isLoading)
    {
      sent := SaveRequest(imageData, message);
      var outcome := SaveOutcome(reply);
      match outcome {
        case Ok(newMemory) =>
          memories := [newMemory] + memories;
          currentPage := SquareScreen;
          alert := None;
        case Err(reason) =>
          alert := Some(SaveAlert(reason));
      }
    }
  }

  /**
   * Against the draft server, a save of non-empty image data and message is
   * answered with the record the server stored, so that record is what the
   * client puts in front of its list.
   */
  method SaveAgainstServer(app: App, kv: DraftServer.KvStore, imageData: string, message: string, idClock: nat, createdClock: nat)
    returns (alert: Option<string>)
    requires imageData != [] && message != []
    modifies app, kv
    ensures var m := DraftServer.NewMemory(SaveRequest(imageData, message), idClock, createdClock);
      && kv.entries == old(kv.entries)[m.id := m]
      && app.memories == [m] + old(app.memories)
      && app.currentPage == SquareScreen
      && alert == None
  {
    var reply := DraftServer.PostMemory(kv, Decoded(SaveRequest(imageData, message)), idClock, createdClock, None);
    var sent;
    sent, alert := app.HandleSaveMemory(imageData, message, ClientView(reply));
  }

  /** An empty message never reaches the store: the server answers 400 and the client alerts with its reason. */
  lemma EmptyMessageIsRefused(imageData: string)
    ensures !DraftServer.HasRequiredFields(SaveRequest(imageData, ""))
    ensures SaveOutcome(ClientView(DraftServer.HttpReply(400, DraftServer.ErrorJson(DraftServer.RequiredError))))
      == Err(DraftServer.RequiredError)
  {
  }
}
