/** Which close code each peer is told, for every shutdown error and every captured code. */
module CloseCodes {

  /** The sentinels errors.Is can find in a shutdown error. */
  datatype Sentinel =
    | BridgeCanceled | GoCanceled | SessionExpired | EndpointUnavailable | MessageProcessing | ConnectionFailed

  /** A shutdown error: nil, or an error wrapping some sentinels. */
  datatype Cause = NilErr | Error(wraps: set<Sentinel>, text: string)

  datatype Info = Info(code: int, text: string)

  const NO_INFO := Info(0, "")

  predicate Sendable(code: int) {
    code != 1005 && code != 1006 && code != 1015 && (3000 <= code <= 4999 || 1000 <= code <= 1014)
  }

  function Sanitize(code: int): (r: int)
    ensures Sendable(r)
    ensures Sendable(code) ==> r == code
  {
    if Sendable(code) then code else 1011
  }

  function EndpointCode(clientCode: int): (r: int)
    ensures r !in {1011, 1012, 1013}
    ensures Sendable(clientCode) ==> Sendable(r)
    ensures clientCode !in {1011, 1012, 1013} ==> r == clientCode
  {
    if clientCode in {1011, 1012, 1013} then 1001 else clientCode
  }

  predicate Is(err: Cause, s: Sentinel) {
    err.Error? && s in err.wraps
  }

  /** The code an error alone stands for. */
  function ByError(err: Cause): (r: Info)
    ensures r.code == 1011 || r.code == 1012
    ensures r.code == 1012 <==>
            || err.NilErr? || Is(err, BridgeCanceled) || Is(err, GoCanceled)
            || Is(err, SessionExpired) || Is(err, EndpointUnavailable)
  {
    if err.NilErr? || Is(err, BridgeCanceled) || Is(err, GoCanceled) then
      Info(1012, "service restarting, please reconnect")
    else if Is(err, SessionExpired) then Info(1012, "session ended, please reconnect")
    else if Is(err, EndpointUnavailable) then Info(1012, "endpoint temporarily unavailable, please reconnect")
    else if Is(err, MessageProcessing) then Info(1011, "message processing error")
    else if Is(err, ConnectionFailed) then Info(1011, "connection error")
    else Info(1011, "bridge error: " + err.text)
  }

  /** The reason a client is given for an error with one cause. */
  lemma Reasons(err: Cause)
    requires err.Error?
    ensures err.wraps == {BridgeCanceled} || err.wraps == {GoCanceled} ==>
              ByError(err).text == "service restarting, please reconnect"
    ensures err.wraps == {SessionExpired} ==> ByError(err).text == "session ended, please reconnect"
    ensures err.wraps == {EndpointUnavailable} ==>
              ByError(err).text == "endpoint temporarily unavailable, please reconnect"
    ensures err.wraps == {MessageProcessing} ==> ByError(err).text == "message processing error"
    ensures err.wraps == {ConnectionFailed} ==> ByError(err).text == "connection error"
    ensures err.wraps == {} ==> ByError(err).text == "bridge error: " + err.text
  {
  }

  /** The endpoint's captured code, else the client's, else the error's. */
  function Determine(endpoint: Info, client: Info, err: Cause): (r: Info)
    ensures r.code != 0
    ensures r == endpoint || r == client || r == ByError(err)
  {
    if endpoint.code != 0 then endpoint
    else if client.code != 0 then client
    else ByError(err)
  }

  function ClientFrame(meant: Info): (r: Info) {
    Info(Sanitize(meant.code), meant.text)
  }

  function EndpointFrame(meant: Info): (r: Info) {
    Info(EndpointCode(Sanitize(meant.code)), meant.text)
  }

  /** What the peers are told for a code and text: a code that may be sent goes to the client as it is, any other as
      1011; the supplier gets the same, but 1001 for the three codes that only a server sends. */
  ghost predicate Tells(client: seq<Info>, supplier: seq<Info>, code: int, text: string) {
    var legal := (1000 <= code <= 1014 && code != 1005 && code != 1006) || 3000 <= code <= 4999;
    && (forall f :: f in client ==> f == Info(if legal then code else 1011, text))
    && (forall f :: f in supplier ==> f == Info(if !legal || 1011 <= code <= 1013 then 1001 else code, text))
  }

  lemma FramesTell(meant: Info)
    ensures Tells([ClientFrame(meant)], [EndpointFrame(meant)], meant.code, meant.text)
    ensures ClientFrame(meant).code !in {1005, 1006, 1015} && EndpointFrame(meant).code !in {1005, 1006, 1015}
    ensures EndpointFrame(meant).code !in {1011, 1012, 1013}
  {
  }
}
