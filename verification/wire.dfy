/**
  The wire envelopes exchanged over one connection, and the frames the
  WebSocket transport delivers. Their protobuf byte layout is not part of
  this model: a binary frame carries the envelope it decodes to, or nothing
  when the bytes do not decode.
 */
module Wire {
  import opened Wrappers
  import opened TextBytes

  /** Request identifiers are scoped to the connection that issued them. */
  type ReqId = nat

  /** The payload encoding named in a request or response. */
  datatype DataType = JSON | Proto | Text

  /** A fire-and-forget envelope; no reply is expected. */
  datatype Message = Message(data: Bytes)

  datatype Request = Request(reqId: ReqId, name: string, dtype: DataType, data: Bytes)

  /** `isError` is false unless set, as for any absent protobuf field. */
  datatype Response = Response(reqId: ReqId, dtype: DataType, isError: bool, data: Bytes)

  /** The envelope's one-of content; `NoContent` is a wrapper with none set. */
  datatype Wrapper =
    | MessageW(message: Message)
    | RequestW(request: Request)
    | ResponseW(response: Response)
    | NoContent

  /**
    A WebSocket frame. A text frame carries a string; a binary frame
    carries the decoded wrapper, `None` when `Wrapper.decode` would throw.
   */
  datatype Frame = TextFrame(text: string) | BinaryFrame(decoded: Option<Wrapper>)

  /** The frame the peer receives for a wrapper sent with `sendBytes`. */
  function Transmit(w: Wrapper): (f: Frame)
    ensures f.BinaryFrame? && f.decoded == Some(w)
  {
    BinaryFrame(Some(w))
  }
}
