/**
 * `getTelnetServerType`: classify a Telnet target once, before any credential is tried.
 * The gotelnet client is external; only its outcomes enter the model: whether
 * `Connect` returned an error and what `MakeServerType` reports.
 */
module TelnetProbe {

  /** A server-type classification; `Closed` is gotelnet's sentinel for an unreachable target. */
  datatype ServerType = Closed | Reported(code: int)

  /** The calls the probe makes on its client, in order. */
  datatype ClientCall = Connect(ip: string, port: int) | QueryServerType | Close

  datatype Probe = Probe(serverType: ServerType, calls: seq<ClientCall>)

  /**
   * A failed connect yields `Closed` without querying or closing the client; a
   * successful one yields the reported type, and the deferred `Close` runs exactly
   * once, after the query.
   */
  function GetTelnetServerType(ip: string, port: int, connectErr: bool, reported: ServerType): (p: Probe)
    ensures |p.calls| > 0 && p.calls[0] == Connect(ip, port)
    ensures multiset(p.calls)[Connect(ip, port)] == 1
    ensures connectErr ==> p.serverType == Closed && QueryServerType !in p.calls && Close !in p.calls
    ensures !connectErr ==> p.serverType == reported
    ensures !connectErr ==> multiset(p.calls)[QueryServerType] == 1 && multiset(p.calls)[Close] == 1
    ensures !connectErr ==> p.calls[|p.calls| - 1] == Close && QueryServerType in p.calls[..|p.calls| - 1]
  {
    if connectErr then
      Probe(Closed, [Connect(ip, port)])
    else
      Probe(reported, [Connect(ip, port), QueryServerType, Close])
  }
}
