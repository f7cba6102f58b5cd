/**
 * Gallery state of the client (frontend/src/App.tsx): the list of memories,
 * the loading flag and the current screen, updated by `fetchMemories` and
 * `handleSaveMemory` from the outcome of their `fetch` calls.
 */
module GalleryApp {
  import opened Wrappers
  import opened Web
  import opened AppShell

  /** A record as the server's JSON gives it. */
  datatype HeartMemory = HeartMemory(id: int, imageUrl: string, message: string, createdAt: string)

  /** The body of a successful `POST /upload`: `{ message, data }`. */
  datatype UploadReply = UploadReply(message: string, data: HeartMemory)

  /** The body of a failed request; only its `message` field is read. */
  datatype ErrorReply = ErrorReply(message: Option<string>)

  /** The multipart body `handleSaveMemory` posts to `/upload`: fields `file` and `message`. */
  datatype UploadForm = UploadForm(file: File, message: string)

  /**
   * What `handleSaveMemory` ends with: the new record (`result.data`), or the
   * message of the error it caught.
   */
  function SaveOutcome(reply: Reply<UploadReply, ErrorReply>): (r: Result<HeartMemory, string>)
    ensures r.Ok? <==> reply.OkResponse? && reply.body.Decoded?
    ensures r.Ok? ==> r.value == reply.body.value.data
    ensures reply.NotOk? && reply.errorBody.Decoded? ==>
      r == Err(SaveErrorText(reply.errorBody.value.message))
    ensures reply.NetworkError? ==> r == Err(reply.reason)
    ensures (reply.NotOk? && reply.errorBody.Undecodable?) ==> r == Err(reply.errorBody.reason)
    ensures (reply.OkResponse? && reply.body.Undecodable?) ==> r == Err(reply.body.reason)
  {
    match reply
    case NetworkError(reason) => Err(reason)
    case NotOk(Undecodable(reason)) => Err(reason)
    case NotOk(Decoded(errorData)) => Err(SaveErrorText(errorData.message))
    case OkResponse(Undecodable(reason)) => Err(reason)
    case OkResponse(Decoded(result)) => Ok(result.data)
  }

  class App {
    var currentPage: Page
    var memories: seq<HeartMemory>
    var isLoading: bool

    /** The initial `useState` values. */
    constructor ()
      ensures currentPage == MainScreen && memories == [] && isLoading
    {
      currentPage, memories, isLoading := MainScreen, [], true;
    }

    /** `fetchMemories` up to its `await fetch(...)`: the loading flag is raised. */
    method BeginFetch()
      modifies this
      ensures isLoading
      ensures memories == old(memories) && currentPage == old(currentPage)
    {
      isLoading := true;
    }

    /**
     * `fetchMemories` after the reply arrives: the list is replaced wholesale
     * by the server's list, or emptied on any failure, and loading ends.
     */
    method CompleteFetch(reply: Reply<seq<HeartMemory>, string>)
      modifies this
      ensures !isLoading
      ensures memories == FetchedList(reply)
      ensures currentPage == old(currentPage)
    {
      match reply {
        case OkResponse(Decoded(data)) =>
          memories := data;
        case _ =>
          memories := [];
      }
      isLoading := false;
    }

    /**
     * `handleSaveMemory(file, message)`: post the form, then, once the reply arrives, a
     * success puts `result.data` in front of the list and opens the gallery;
     * a failure changes nothing and raises an alert.
     */
    method HandleSaveMemory(file: File, message: string, reply: Reply<UploadReply, ErrorReply>)
      returns (sent: UploadForm, alert: Option<string>)
      modifies this
      ensures sent == UploadForm(file, message)
      ensures SaveOutcome(reply).Ok? ==>
        && memories == [SaveOutcome(reply).value] + old(memories)
        && currentPage == SquareScreen
        && alert == None
      ensures SaveOutcome(reply).Err? ==>
        && memories == old(memories)
        && currentPage == old(currentPage)
        && alert == Some(SaveAlert(SaveOutcome(reply).error))
      ensures isLoading == old(isLoading)
    {
      sent := UploadForm(file, message);
      var outcome := SaveOutcome(reply);
      match outcome {
        case Ok(newMemory) =>
          memories := [newMemory] + memories;
          currentPage := SquareScreen;
          alert := None;
        case Err(reason) =>
          alert := Some(SaveAlert(reason));
      }
    }
  }

  /** How many records of `list` carry `id`. */
  function CountWithId(list: seq<HeartMemory>, id: int): (n: nat)
    ensures n <= |list|
    ensures n == 0 <==> forall i :: 0 <= i < |list| ==> list[i].id != id
  {
    if list == [] then 0 else (if list[0].id == id then 1 else 0) + CountWithId(list[1..], id)
  }

  /**
   * A save is not deduplicated by `id`: prepending a record whose id is
   * already listed leaves that id listed once more than before.
   */
  lemma {:induction false} PrependAddsOneWithId(before: seq<HeartMemory>, m: HeartMemory)
    ensures CountWithId([m] + before, m.id) == CountWithId(before, m.id) + 1
  {
    assert ([m] + before)[1..] == before;
  }
}
