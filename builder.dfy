/** The proxy descriptor builder and the whole subscription request, stated
    as functions of the request's id and the stored inbound records. */
module Builder {
  import opened Wrappers
  import opened Json
  import opened Decimal
  import opened Clash
  import opened Extract
  import opened Transport

  /** The client-facing port: the override port when it is positive,
      otherwise the listening port (also for a zero or negative override). */
  function ResolvePort(speedPort: int, port: int): (p: int)
    ensures speedPort > 0 ==> p == speedPort
    ensures speedPort <= 0 ==> p == port
  {
    if speedPort > 0 then speedPort else port
  }

  /** An override address a client can be pointed at: neither empty nor the
      wildcard bind address. */
  predicate HasSpeedIp(inb: Inbound)
    ensures !HasSpeedIp(inb) <==> inb.speedIp in {"", "0.0.0.0"}
  {
    inb.speedIp != "" && inb.speedIp != "0.0.0.0"
  }

  /** The proxy entry for one inbound record, or the refusal. The protocol is
      tested before the address, so a non-vmess record is refused as such
      whatever its address. */
  function BuildProxy(inb: Inbound): (r: Result<Proxy, Error>)
    ensures inb.protocol != "vmess" ==> r == Failure(OnlyVmessSupported)
    ensures inb.protocol == "vmess" && (inb.speedIp == "" || inb.speedIp == "0.0.0.0") ==>
      r == Failure(SpeedIpNotSet)
    ensures r.Success? <==> inb.protocol == "vmess" && HasSpeedIp(inb)
    ensures r.Success? ==>
      && r.value.name == inb.remark
      && r.value.proxyType == "vmess"
      && r.value.server == inb.speedIp
      && r.value.cipher == "auto"
      && !r.value.skipCertVerify
    ensures r.Success? ==>
      && (inb.speedPort > 0 ==> r.value.port == inb.speedPort)
      && (inb.speedPort <= 0 ==> r.value.port == inb.port)
    ensures r.Success? ==>
      var stream := AsObject(inb.streamSettings);
      && r.value.network == StringOr(stream, "network", "")
      && (r.value.tls <==> SecurityOf(stream) == "tls" || SecurityOf(stream) == "xtls")
      && r.value.serverName == ServerName(SecurityOf(stream), stream)
      && (r.value.serverName != "" ==> r.value.tls)
    ensures r.Success? ==>
      var credentials := ClientCredentials(AsObject(inb.settings));
      r.value.uuid == credentials.uuid && r.value.alterId == credentials.alterId
    ensures r.Success? ==>
      && (r.value.wsOpts.Some? ==> r.value.network == "ws")
      && (r.value.h2Opts.Some? ==> r.value.network == "http")
      && (r.value.grpcOpts.Some? ==> r.value.network == "grpc")
    ensures r.Success? ==>
      var stream := AsObject(inb.streamSettings);
      var opts := TransportOptions(NetworkOf(stream), stream);
      r.value.wsOpts == opts.ws && r.value.h2Opts == opts.h2 && r.value.grpcOpts == opts.grpc
  {
    if inb.protocol != "vmess" then Failure(OnlyVmessSupported)
    else if !HasSpeedIp(inb) then Failure(SpeedIpNotSet)
    else
      var credentials := ClientCredentials(AsObject(inb.settings));
      var stream := AsObject(inb.streamSettings);
      var network := NetworkOf(stream);
      var security := SecurityOf(stream);
      var opts := TransportOptions(network, stream);
      Success(Proxy(
        name := inb.remark,
        proxyType := "vmess",
        server := inb.speedIp,
        port := ResolvePort(inb.speedPort, inb.port),
        uuid := credentials.uuid,
        alterId := credentials.alterId,
        cipher := "auto",
        tls := TlsEnabled(security),
        network := network,
        serverName := ServerName(security, stream),
        skipCertVerify := false,
        wsOpts := opts.ws,
        h2Opts := opts.h2,
        grpcOpts := opts.grpc))
  }

  /** The attachment name `clash_<stem>.yaml`: the stem is the remark when it
      is non-empty, else the decimal rendering of the id, which reads back as
      that id. */
  function Filename(inb: Inbound): (f: string)
    ensures |f| >= 12 && f[..6] == "clash_" && f[|f| - 5..] == ".yaml"
    ensures inb.remark != "" ==> f[6..|f| - 5] == inb.remark
    ensures inb.remark == "" ==> ParseDecimal(f[6..|f| - 5]) == Some(inb.id)
  {
    var stem := if inb.remark != "" then inb.remark else FormatInt(inb.id);
    var f := "clash_" + stem + ".yaml";
    assert f[6..|f| - 5] == stem;
    FormatIntRoundTrip(inb.id);
    f
  }

  /** Without a remark the stem is exactly the `%d` rendering of the id,
      which `Decimal.FormatIntCanonical` shows is canonical. */
  lemma FilenameIsDecimal(inb: Inbound)
    ensures inb.remark == "" ==> Filename(inb) == "clash_" + FormatInt(inb.id) + ".yaml"
  {
  }

  /** The whole request: parse the id (done by the caller; None when the
      path parameter is not a base-10 integer), fetch the record, build the
      entry, wrap it in a one-entry document and name the file. */
  function ClashSub(id: Option<int>, store: map<int, Inbound>): (r: Result<Subscription, Error>)
    ensures id.None? ==> r == Failure(InvalidId)
    ensures id.Some? && id.value !in store ==> r == Failure(InboundNotFound)
    ensures id.Some? && id.value in store && BuildProxy(store[id.value]).Failure? ==>
      r == Failure(BuildProxy(store[id.value]).error)
    ensures id.Some? && id.value in store && BuildProxy(store[id.value]).Success? ==> r.Success?
    ensures r.Success? ==>
      && id.Some? && id.value in store
      && BuildProxy(store[id.value]).Success?
      && r.value.file.proxies == [BuildProxy(store[id.value]).value]
      && r.value.filename == Filename(store[id.value])
  {
    match id
    case None => Failure(InvalidId)
    case Some(n) =>
      if n !in store then Failure(InboundNotFound)
      else
        var inb := store[n];
        match BuildProxy(inb)
        case Failure(e) => Failure(e)
        case Success(p) => Success(Subscription(ClashFile([p]), Filename(inb)))
  }

  /** A request that is not refused yields a document with exactly one proxy
      entry, for the record under the requested id. */
  lemma OneProxyPerDocument(id: Option<int>, store: map<int, Inbound>)
    requires ClashSub(id, store).Success?
    ensures |ClashSub(id, store).value.file.proxies| == 1
    ensures ClashSub(id, store).value.file.proxies[0].name == store[id.value].remark
  {
  }

  /** An id that does not parse is refused before any lookup: the outcome
      does not depend on the stored records. */
  lemma InvalidIdNeedsNoLookup(s1: map<int, Inbound>, s2: map<int, Inbound>)
    ensures ClashSub(None, s1) == ClashSub(None, s2) == Failure(InvalidId)
  {
  }

  /** The refusals are answered in a fixed order: id, lookup, protocol,
      address. In particular a non-vmess record is refused as such even when
      its address is also unusable. */
  lemma RefusalOrder(n: int, store: map<int, Inbound>)
    requires n in store
    ensures store[n].protocol != "vmess" ==> ClashSub(Some(n), store) == Failure(OnlyVmessSupported)
    ensures store[n].protocol == "vmess" && !HasSpeedIp(store[n]) ==>
      ClashSub(Some(n), store) == Failure(SpeedIpNotSet)
    ensures ClashSub(Some(n), store).Success? <==> store[n].protocol == "vmess" && HasSpeedIp(store[n])
  {
  }
}
