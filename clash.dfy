/** The records the subscription handler reads and produces: the inbound
    snapshot it fetches, the Clash proxy entry and document it builds, and the
    ways a request can be refused. */
module Clash {
  import opened Wrappers
  import opened Json

  /** The fields of an inbound record that the handler reads. `settings` and
      `streamSettings` are stored as JSON text; here each is held as the
      outcome of decoding that text (None when the text is malformed). */
  datatype Inbound = Inbound(
    id: int,
    protocol: string,
    remark: string,
    port: int,
    speedIp: string,
    speedPort: int,
    settings: Option<Json>,
    streamSettings: Option<Json>)

  /** `ws-opts`. A nil header map and an empty one are both left out of the
      YAML, so an absent `headers` document is the empty map here. */
  datatype WsOpts = WsOpts(path: string, headers: map<string, string>)

  /** `h2-opts`. */
  datatype H2Opts = H2Opts(host: seq<string>, path: string)

  /** `grpc-opts`. */
  datatype GrpcOpts = GrpcOpts(serviceName: string)

  /** One entry of the `proxies` list of a Clash configuration. */
  datatype Proxy = Proxy(
    name: string,
    proxyType: string,
    server: string,
    port: int,
    uuid: string,
    alterId: int,
    cipher: string,
    tls: bool,
    network: string,
    serverName: string,
    skipCertVerify: bool,
    wsOpts: Option<WsOpts>,
    h2Opts: Option<H2Opts>,
    grpcOpts: Option<GrpcOpts>)

  /** The YAML document: `proxies:` and its list. */
  datatype ClashFile = ClashFile(proxies: seq<Proxy>)

  /** A successful answer: the document and the attachment's file name. */
  datatype Subscription = Subscription(file: ClashFile, filename: string)

  /** The refusals, in the order the handler tests for them. */
  datatype Error = InvalidId | InboundNotFound | OnlyVmessSupported | SpeedIpNotSet

  /** The HTTP status each refusal is answered with: 404 for a missing
      record, 400 for every other refusal. */
  function StatusCode(e: Error): (code: int)
    ensures code == 404 <==> e == InboundNotFound
    ensures code != 404 ==> code == 400
  {
    if e == InboundNotFound then 404 else 400
  }

  /** The plain-text body of each refusal. */
  function Message(e: Error): (m: string)
    ensures |m| > 0
  {
    match e
    case InvalidId => "invalid id"
    case InboundNotFound => "inbound not found"
    case OnlyVmessSupported => "only vmess supported"
    case SpeedIpNotSet => "speed ip not set"
  }

  /** The body names the refusal: no two refusals share a text. */
  lemma MessageIdentifiesError(e1: Error, e2: Error)
    ensures Message(e1) == Message(e2) ==> e1 == e2
  {
  }
}
