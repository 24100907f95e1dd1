/**
 * What a service worker receives and does besides touching its caches: the
 * build's asset manifest as JSON, the control message from the page, the
 * platform actions it requests and the answers it gives to intercepted
 * requests.
 */
module WorkerEvents {
  import opened Wrappers
  import opened Text
  import opened CacheStorage

  /** A JSON value found among a manifest's `files` values or `entrypoints`. */
  datatype JsonValue = JString(s: string) | JNumber(n: int) | JBool(b: bool) | JNull

  /** JavaScript truthiness, which `filter(Boolean)` tests. */
  predicate Truthy(v: JsonValue) {
    match v
    case JString(s) => s != ""
    case JNumber(n) => n != 0
    case JBool(b) => b
    case JNull => false
  }

  /** `String(v)`, the text the URL constructor reads from a value. */
  function JsText(v: JsonValue): string {
    match v
    case JString(s) => s
    case JNumber(n) => IntToString(n)
    case JBool(b) => if b then "true" else "false"
    case JNull => "null"
  }

  /**
   * The build's `asset-manifest.json`: the values of its `files` object in
   * key order and its `entrypoints` array. A missing field is empty, as
   * `manifest.files || {}` and `manifest.entrypoints || []` make it.
   */
  datatype Manifest = Manifest(files: seq<JsonValue>, entrypoints: seq<JsonValue>)

  /** The outcome of fetching the manifest and calling `res.json()` on the response. */
  datatype ManifestRead = FetchRejected | NotJson | Parsed(manifest: Manifest)

  /** Platform actions a worker requests: `self.skipWaiting()` and `self.clients.claim()`. */
  datatype Effect = SkipWaiting | ClaimClients

  /** `event.data` of a message: absent, or an object whose `type` field may be a string. */
  datatype MessageData = NoData | Data(typeField: Option<string>)

  /** `event.data && event.data.type === "SKIP_WAITING"`. */
  predicate IsSkipWaiting(d: MessageData) {
    d.Data? && d.typeField == Some("SKIP_WAITING")
  }

  /** Whether the promise given to `event.waitUntil` during install resolved or rejected. */
  datatype InstallOutcome = Installed | InstallRejected

  /**
   * How a fetch event ends: the handler returns without `respondWith`, answers
   * with a response, or answers with a promise that rejects (the page sees a
   * network error).
   */
  datatype FetchOutcome = PassThrough | Respond(response: Response) | RespondNetworkError

  /** The answer to a navigation that neither the cache nor the network can serve. */
  const OFFLINE_PAGE := Response(503, "", "Offline")

  /** The answer to a subresource that neither the cache nor the network can serve. */
  const OFFLINE_ASSET := Response(504, "Offline", "")
}
