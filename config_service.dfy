/**
 * The configuration service of the IM application: `Get` answers every
 * request with the same server list, one entry of type 1 holding two
 * weighted endpoints on the loopback address.
 *
 * The protobuf request's fields are not known here; a request is any map of
 * field names to values.
 */
module ConfigService {
  import opened Errors

  datatype Endpoint = Endpoint(address: string, weight: int)
  datatype ServerInfo = ServerInfo(kind: int, endpoints: seq<Endpoint>)
  datatype ConfigResponse = ConfigResponse(serverInfoList: seq<ServerInfo>)
  datatype ConfigRequest = ConfigRequest(fields: map<string, string>)

  /** `Service`: it holds no state of its own. */
  datatype Service = Service

  /** `New()`: the only value there is. */
  function New(): Service {
    Service
  }

  /** `(*Service).Get(ctx, request)`: the response and the error. */
  function Get(s: Service, request: ConfigRequest): (r: (ConfigResponse, Error))
    ensures r.1 == NoError
    ensures |r.0.serverInfoList| == 1 && r.0.serverInfoList[0].kind == 1
    ensures r.0.serverInfoList[0].endpoints ==
      [Endpoint("127.0.0.1:443", 100), Endpoint("127.0.0.1:8080", 90)]
  {
    var rsp := ConfigResponse([]);
    var rsp := rsp.(serverInfoList := rsp.serverInfoList + [
      ServerInfo(1, [Endpoint("127.0.0.1:443", 100), Endpoint("127.0.0.1:8080", 90)])]);
    (rsp, NoError)
  }

  /** The answer does not depend on the request: any two requests get the same response. */
  lemma GetIgnoresRequest(s: Service, a: ConfigRequest, b: ConfigRequest)
    ensures Get(s, a) == Get(s, b)
  {
  }
}
