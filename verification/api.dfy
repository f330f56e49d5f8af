/** The management API as the pipeline sees it: decoded JSON responses and an
    abstract fetch operation that either answers or ends the run. */
module Api {
  import opened Results

  /** One hypermedia link of a `links` array. */
  datatype Link = Link(rel: string, title: string, uri: string)

  /** The `item` object of a server-detail response: the lifecycle state and,
      when present, `health.state`. */
  datatype ServerItem = ServerItem(state: string, health: Option<string>)

  /** One element of a log's `items` array. */
  datatype Item = Item(severity: string, timeStamp: string, message: string)

  /** A decoded response body. `item` is absent on list responses. */
  datatype Response = Response(links: seq<Link>, item: Option<ServerItem>, items: seq<Item>)

  /** Why a run ends early. Every fault is fatal: the run produces no report. */
  datatype Fault =
    | RequestFailed(url: string)                // non-OK status or transport error
    | MissingField(url: string, field: string)  // a key the code indexes is absent
    | NoLogsLink(url: string)                   // no link with rel "logs" to return

  /** An authenticated GET of a URL, decoded; credentials are fixed for a run. */
  type Fetch = string -> Result<Response, Fault>

  /** Whole seconds spent fetching the log at the given URL. */
  type Elapsed = string -> nat
}
