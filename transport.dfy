/**
  The webrtc transport, seen from an `EasyRTCConnector`: the calls the
  connector makes on it (`sendData`, `broadcastData`) and the payloads it
  hands over.
 */
module Transport {
  import opened Engine

  /** The data-channel tag under which all engine traffic travels. */
  const Channel: string := "yjs"

  /** A payload handed to the transport: the message itself, or `JSON.stringify` of it. */
  datatype Wire = Raw(message: Message) | Stringified(message: Message)

  /** One outbound call on the transport. */
  datatype TransportCall =
    | SendData(peer: PeerId, channel: string, payload: Wire)
    | BroadcastData(channel: string, payload: Wire)
}
