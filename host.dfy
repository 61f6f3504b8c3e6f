/** The host capabilities the core only consumes: JSON files on disk and HTTP exchanges.
    Their outcomes are inputs to the model, never computed by it. */
module Host {

  /** What reading a JSON file and parsing it yields. */
  datatype FileState<T> =
    | Missing                       // the path does not exist
    | Unreadable(detail: string)    // `fs::read_to_string` failed
    | Unparseable(detail: string)   // `serde_json::from_str` failed
    | Holds(value: T)               // the file parsed to `value`

  /** One HTTP exchange: the parsed response body, or the stage at which it failed. */
  datatype Exchange<T> =
    | Delivered(body: T)
    | SendFailed(detail: string)    // `.send().await` failed
    | ReadFailed(detail: string)    // `.text().await` failed
    | ParseFailed(detail: string)   // `serde_json::from_str` on the body failed

  /** The error text for a failed exchange: the message prefix of the stage that failed, then the
      error's own text. */
  function FailureText<T>(x: Exchange<T>, sendPrefix: string, readPrefix: string, parsePrefix: string): (m: string)
    requires !x.Delivered?
    ensures x.SendFailed? ==> sendPrefix <= m
    ensures x.ReadFailed? ==> readPrefix <= m
    ensures x.ParseFailed? ==> parsePrefix <= m
    ensures |x.detail| <= |m| && m[|m| - |x.detail|..] == x.detail
  {
    match x
    case SendFailed(d) => sendPrefix + d
    case ReadFailed(d) => readPrefix + d
    case ParseFailed(d) => parsePrefix + d
  }
}
