/**
 * What the two drafts of `App` (frontend/src/App.tsx and frontend_raw/App.tsx)
 * have in common: the two screens, what a history fetch leaves in the
 * list, and how a failed save is reported.
 */
module AppShell {
  import opened Wrappers
  import opened JsText
  import opened Web

  /** The screen `App` renders: the upload form or the gallery. */
  datatype Page = MainScreen | SquareScreen

  /**
   * The list `fetchMemories` stores for a reply: the server's list when the
   * reply is ok and its body decodes, otherwise the empty list.
   */
  function FetchedList<T>(reply: Reply<seq<T>, string>): (list: seq<T>)
    ensures reply.OkResponse? && reply.body.Decoded? ==> list == reply.body.value
    ensures !(reply.OkResponse? && reply.body.Decoded?) ==> list == []
  {
    match reply
    case OkResponse(Decoded(list)) => list
    case _ => []
  }

  /** The text thrown when the server's error body gives no reason. */
  const DefaultSaveError: string := "Failed to save memory"

  /** `reason || 'Failed to save memory'` for the reason field of an error body. */
  function SaveErrorText(reason: Option<string>): (text: string)
    ensures Truthy(text)
    ensures reason.Some? && Truthy(reason.value) ==> text == reason.value
    ensures !(reason.Some? && Truthy(reason.value)) ==> text == DefaultSaveError
  {
    if reason.Some? && Truthy(reason.value) then reason.value else DefaultSaveError
  }

  /** The `alert` text shown for a save that threw with message `reason`. */
  function SaveAlert(reason: string): (text: string)
    ensures |text| == |reason| + 42
    ensures text[..23] == "Failed to save memory: "
    ensures text[|text| - 19..] == ". Please try again."
    ensures text[23..|text| - 19] == reason
  {
    "Failed to save memory: " + reason + ". Please try again."
  }
}
