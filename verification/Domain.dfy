/** The event envelope that every component shares. */
module Domain {
  const CONTENT_TYPE_JSON := "application/json"

  /** The envelope of internal/domain/event.go. Byte slices are sequences of characters. */
  datatype StreamEvent = StreamEvent(
    source: string,
    kind: string,
    timestamp: int,
    contentType: string,
    payload: string,
    data: string)
  {
    /** Anything but JSON travels in `data`. */
    predicate IsBinary() {
      contentType != "" && contentType != CONTENT_TYPE_JSON
    }

    /** What two events must share to be the same to a middleware. */
    function Body(): string {
      if IsBinary() then data else payload
    }
  }

  /** Without a content type, or with that of JSON, an event is its payload; with any other it
      is its data. */
  lemma BodyByContentType(e: StreamEvent)
    ensures e.IsBinary() <==> e.contentType !in {"", "application/json"}
    ensures e.Body() == if e.contentType in {"", "application/json"} then e.payload else e.data
  {
  }
}
