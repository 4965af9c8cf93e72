/** The transport-agnostic values every other module shares. */
module Domain {
  import opened Delimiter

  datatype Option<+T> = None | Some(value: T)
  datatype Result<+T, +E> = Ok(value: T) | Err(error: E)

  type Header = map<string, seq<string>>

  datatype RPCType = Unknown | JSONRPC | REST | CometBFT | GRPC | WebSocket

  /** One supplier's reachable URLs, keyed by RPC type. */
  datatype Endpoint = Endpoint(supplier: string, urls: map<RPCType, string>)

  datatype Session = Session(id: string, service: string, app: string, end: int, endpoints: seq<Endpoint>)

  /** A captured inbound request. */
  datatype RelayInput = RelayInput(verb: string, path: string, header: Header, body: bytes)

  datatype RelayResult = RelayResult(status: int, header: Header, body: bytes)
}
