/** Error and success notifications (src/helpers/notification.ts). */
module Notification {
  import opened Wrappers
  import opened State

  /** `err?.response?.data`: missing, an object (carried with its `JSON.stringify` text,
      which the model takes as given), or a string. */
  datatype ResponseData = NoData | ObjectData(json: string) | TextData(text: string)

  /** The value passed to `error`: a string, or anything else (an exception, a response),
      seen through its `response.data` and its `message` converted to a string. */
  datatype ErrorValue = Text(text: string) | Thrown(data: ResponseData, message: Option<string>)

  /** The first part of the fallback chain: the stringified object or the string data. */
  function DataText(data: ResponseData): string {
    match data
    case NoData => ""
    case ObjectData(json) => json
    case TextData(text) => text
  }

  /** The message shown for an error. A string is shown verbatim; for anything else the
      first non-empty of the response data, the message and 'Error' is shown, so the
      message is never empty. */
  function Message(err: ErrorValue): (m: string)
    ensures err.Text? ==> m == err.text
    ensures err.Thrown? ==> m != ""
    ensures err.Thrown? && DataText(err.data) != "" ==> m == DataText(err.data)
    ensures err.Thrown? && DataText(err.data) == "" && err.message.GetOr("") != "" ==>
              m == err.message.value
    ensures err.Thrown? && DataText(err.data) == "" && err.message.GetOr("") == "" ==>
              m == "Error"
  {
    match err
    case Text(text) => text
    case Thrown(data, message) =>
      if DataText(data) != "" then DataText(data)
      else if message.GetOr("") != "" then message.value
      else "Error"
  }

  /** `error(err)`: shows the error banner with the derived message. */
  method Error(errorState: Banner, err: ErrorValue)
    modifies errorState
    ensures errorState.message == Message(err) && errorState.show
  {
    errorState.message, errorState.show := Message(err), true;
  }

  /** `success(message)`: shows the success banner with the message unchanged. */
  method Success(successState: Banner, message: string)
    modifies successState
    ensures successState.message == message && successState.show
  {
    successState.message, successState.show := message, true;
  }
}
