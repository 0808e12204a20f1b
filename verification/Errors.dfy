/** The errors that settle requests, by tag. Message texts are not modelled. */
module Errors {
  import Varints
  import Messages
  import opened Framing

  datatype Error =
    | FrameError(frame: FrameError)
    | BodyError(decode: Varints.DecodeError)
    | ServerError(response: Messages.WireErrorResponse)
    | ProtocolError(violation: ProtocolReason)
    | ConnError(reason: ConnReason)
    | Aborted(tag: int)
    | WriteException

  datatype ProtocolReason = MissingEvent | UnexpectedKind | VersionMismatch(server: int) | StreamBusy

  datatype ConnReason =
    | SocketFailed
    | Closed
    | WriteFailed(cause: Error)
    | FramingFailed(cause: Error)
    | ProtocolFailed(cause: Error)
    | Unattributed(cause: Error)
}
