/** The ways one request can fail, each at the point of the handler that raises it. */
module Errors {
  import opened Wrappers

  datatype Failure =
    | FetchFailed(message: string)       // a GET of the campaign page was rejected
    | NoCampaignLink                      // the intermediate page embeds no gleam.io link
    | NoEntryCount                        // no `initEntryCount(<digits>)` in the page
    | NoCampaignData                      // no `initCampaign(...)` in the page
    | MalformedCampaign(message: string)  // its argument is not JSON
    | InvalidResource                     // the first incentive is missing or carries `src`
    | InvalidEndDate                      // `ends_at * 1000` is outside the range `Date` accepts
    | PublishFailed(message: string)      // the queue refused the message

  /** The message of the one `throw` the handler writes itself (index.js, line 30). */
  const InvalidResourceMessage: string := "Resource not in a valid format."

  /**
   * `e.message` for a failure, as the 422 body reports it: the handler's own
   * message, or the one the client, the parser or the queue gave. The
   * TypeError of indexing a missed match and the RangeError of `toISOString`
   * carry the engine's wording, which is not modelled (`None`).
   */
  function Message(f: Failure): (m: Option<string>)
    ensures f == InvalidResource <==> m == Some(InvalidResourceMessage) && !f.FetchFailed? && !f.MalformedCampaign? && !f.PublishFailed?
    ensures f.FetchFailed? || f.MalformedCampaign? || f.PublishFailed? ==> m == Some(f.message)
    ensures m.None? <==> f in {NoCampaignLink, NoEntryCount, NoCampaignData, InvalidEndDate}
  {
    match f
    case FetchFailed(message) => Some(message)
    case MalformedCampaign(message) => Some(message)
    case PublishFailed(message) => Some(message)
    case InvalidResource => Some(InvalidResourceMessage)
    case _ => None
  }
}
