/** Worked requests: concrete records and the answers the handler gives. */
module Scenarios {
  import opened Wrappers
  import opened Json
  import opened Clash
  import opened Builder

  /** A vmess record behind 1.2.3.4:443 over websocket with TLS. */
  function WsTlsRecord(speedIp: string, protocol: string): Inbound
  {
    var client := JObject(map["id" := JString("abc-123"), "alterId" := JNumber(0.0)]);
    var ws := JObject(map[
      "path" := JString("/ws"),
      "headers" := JObject(map["Host" := JString("example.com")])]);
    Inbound(
      id := 7,
      protocol := protocol,
      remark := "srv1",
      port := 443,
      speedIp := speedIp,
      speedPort := 0,
      settings := Some(JObject(map["clients" := JArray([client])])),
      streamSettings := Some(JObject(map[
        "network" := JString("ws"),
        "security" := JString("tls"),
        "wsSettings" := ws,
        "tlsSettings" := JObject(map["serverName" := JString("example.com")])])))
  }

  /** The entry expected for the websocket record. */
  function WsTlsProxy(): Proxy
  {
    Proxy(
      name := "srv1", proxyType := "vmess", server := "1.2.3.4", port := 443,
      uuid := "abc-123", alterId := 0, cipher := "auto", tls := true,
      network := "ws", serverName := "example.com", skipCertVerify := false,
      wsOpts := Some(WsOpts("/ws", map["Host" := "example.com"])),
      h2Opts := None, grpcOpts := None)
  }

  lemma WebSocketTlsCredentials()
    ensures Extract.ClientCredentials(AsObject(WsTlsRecord("1.2.3.4", "vmess").settings))
            == Extract.Credentials("abc-123", 0)
  {
  }

  lemma WebSocketTlsOptions()
    ensures var stream := AsObject(WsTlsRecord("1.2.3.4", "vmess").streamSettings);
            Transport.TransportOptions("ws", stream)
            == Transport.TransportOpts(Some(WsOpts("/ws", map["Host" := "example.com"])), None, None)
  {
    ExampleHeaders();
  }

  lemma WebSocketTlsEntry()
    ensures BuildProxy(WsTlsRecord("1.2.3.4", "vmess")) == Success(WsTlsProxy())
  {
    WebSocketTlsCredentials();
    WebSocketTlsOptions();
  }

  lemma WebSocketTlsFilename()
    ensures Filename(WsTlsRecord("1.2.3.4", "vmess")) == "clash_srv1.yaml"
  {
  }

  lemma WebSocketTlsAnswer()
    ensures ClashSub(Some(7), map[7 := WsTlsRecord("1.2.3.4", "vmess")])
            == Success(Subscription(ClashFile([WsTlsProxy()]), "clash_srv1.yaml"))
  {
    WebSocketTlsEntry();
    WebSocketTlsFilename();
    var store := map[7 := WsTlsRecord("1.2.3.4", "vmess")];
    assert 7 in store && store[7] == WsTlsRecord("1.2.3.4", "vmess");
  }

  /** The header object of the websocket record is kept as it is. */
  lemma ExampleHeaders()
    ensures Transport.WsHeaders(map["Host" := JString("example.com")]) == map["Host" := "example.com"]
  {
  }

  lemma WildcardAddressRefused()
    ensures ClashSub(Some(7), map[7 := WsTlsRecord("0.0.0.0", "vmess")]) == Failure(SpeedIpNotSet)
  {
  }

  lemma OtherProtocolRefused()
    ensures ClashSub(Some(7), map[7 := WsTlsRecord("1.2.3.4", "vless")]) == Failure(OnlyVmessSupported)
  {
  }

  lemma GrpcEntry()
    ensures var inb := WsTlsRecord("1.2.3.4", "vmess").(
              remark := "",
              streamSettings := Some(JObject(map[
                "network" := JString("grpc"),
                "grpcSettings" := JObject(map["serviceName" := JString("svc")])])));
            var r := ClashSub(Some(7), map[7 := inb]);
            && r.Success?
            && r.value.file.proxies[0].grpcOpts == Some(GrpcOpts("svc"))
            && r.value.file.proxies[0].wsOpts.None?
            && r.value.file.proxies[0].h2Opts.None?
            && !r.value.file.proxies[0].tls
            && r.value.filename == "clash_7.yaml"
  {
  }

  lemma UnparsableIdRefused(store: map<int, Inbound>)
    ensures ClashSub(None, store) == Failure(InvalidId)
    ensures StatusCode(InvalidId) == 400
  {
  }
}
