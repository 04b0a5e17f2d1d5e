/** The values the IPC client hands to its caller: error codes, events and results. */
module Protocol {
  import Json

  /** Every failure the client reports (the spelling of each variant follows the client's own enum). */
  datatype ErrorCode =
    | MpvError(msg: string)
    | JsonParseError(msg: string)
    | ConnectError(msg: string)
    | JsonContainsUnexptectedType
    | UnexpectedResult
    | UnexpectedValue
    | UnsupportedType
    | ValueDoesNotContainBool
    | ValueDoesNotContainF64
    | ValueDoesNotContainHashMap
    | ValueDoesNotContainPlaylist
    | ValueDoesNotContainString
    | ValueDoesNotContainUsize

  /** A result that is either a value or an error code. */
  datatype Result<T> = Ok(value: T) | Err(error: ErrorCode)

  /** Player events the client recognises; the three typed ones carry the playback position. */
  datatype Event =
    | Pause(pos: Json.F64)
    | Play(pos: Json.F64)
    | Seek(pos: Json.F64)
    | Unimplemented

  /** What the JSON parser makes of one line: a value, or its error message. */
  datatype ParseResult = Parsed(value: Json.Value) | ParseFailed(msg: string)
}
