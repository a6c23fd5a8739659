/** What one HTTP exchange delivers to the callback of `requestWithDefaults`:
    either a transport error (`err` set) or a status code and a parsed body. */
module Transport {
  import opened JsValues

  datatype Response = TransportError | Reply(status: int, body: Value)
}
