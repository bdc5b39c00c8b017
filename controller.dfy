/** The subscription handler as the controllers run it: mutable locals
    threaded through nested type tests, a header copy loop followed by the
    rename of "host", an append loop over the HTTP/2 hosts, and option blocks
    attached to the entry after it is built. Both route registrations (the
    panel's `/xui/inbound/clash/:id` and the public `/clash/:id`) run this
    same code. */
module Controller {
  import opened Wrappers
  import opened Json
  import opened Decimal
  import opened Clash
  import opened Extract
  import opened Transport
  import opened Builder

  /** Copies the string-valued entries of a decoded `headers` object, one
      key at a time, in whatever order the map is visited. */
  method CopyStringHeaders(hdrs: Object) returns (out: map<string, string>)
    ensures out == StringEntries(hdrs)
  {
    out := map[];
    var todo := hdrs.Keys;
    while todo != {}
      invariant todo <= hdrs.Keys
      invariant forall k :: k in out <==> k in hdrs && k !in todo && hdrs[k].JString?
      invariant forall k :: k in out ==> out[k] == hdrs[k].s
      decreases todo
    {
      var k :| k in todo;
      var v := hdrs[k];
      if v.JString? {
        out := out[k := v.s];
      }
      todo := todo - {k};
    }
  }

  /** Appends every non-empty string entry of `hosts`, in order. */
  method CollectHosts(hosts: seq<Json>) returns (out: seq<string>)
    ensures out == NonEmptyStrings(hosts)
  {
    out := [];
    for i := 0 to |hosts|
      invariant out == NonEmptyStrings(hosts[..i])
    {
      assert hosts[..i + 1][..i] == hosts[..i];
      var hv := hosts[i];
      if hv.JString? && hv.s != "" {
        out := out + [hv.s];
      }
    }
    assert hosts[..|hosts|] == hosts;
  }

  /** The `uuid` and `alterId` locals: both start at their zero values and
      are overwritten only by well-typed fields of the first client. */
  method ReadCredentials(settings: Object) returns (uuid: string, alterId: int)
    ensures Credentials(uuid, alterId) == ClientCredentials(settings)
  {
    uuid := "";
    alterId := 0;
    if "clients" in settings {
      var v := settings["clients"];
      if v.JArray? && |v.items| > 0 {
        var cli := v.items[0];
        if cli.JObject? {
          if "id" in cli.fields && cli.fields["id"].JString? {
            uuid := cli.fields["id"].s;
          }
          if "alterId" in cli.fields && cli.fields["alterId"].JNumber? {
            alterId := TruncateTowardZero(cli.fields["alterId"].n);
          }
        }
      }
    }
  }

  /** The `network`, `security` and `serverName` locals. */
  method ReadStream(stream: Object) returns (network: string, security: string, serverName: string)
    ensures network == NetworkOf(stream) && security == SecurityOf(stream)
    ensures serverName == ServerName(security, stream)
  {
    network := "";
    security := "";
    serverName := "";
    if "network" in stream && stream["network"].JString? {
      network := stream["network"].s;
    }
    if "security" in stream && stream["security"].JString? {
      security := stream["security"].s;
    }
    if security == "tls" {
      if "tlsSettings" in stream && stream["tlsSettings"].JObject? {
        var ts := stream["tlsSettings"].fields;
        if "serverName" in ts && ts["serverName"].JString? {
          serverName := ts["serverName"].s;
        }
      }
    } else if security == "xtls" {
      if "xtlsSettings" in stream && stream["xtlsSettings"].JObject? {
        var xs := stream["xtlsSettings"].fields;
        if "serverName" in xs && xs["serverName"].JString? {
          serverName := xs["serverName"].s;
        }
      }
    }
  }

  /** Fills a `ws-opts` block from a `wsSettings` object: the path, then the
      copied headers with "host" renamed to "Host". */
  method BuildWsOpts(ws: Object) returns (o: WsOpts)
    ensures o == WsOptions(ws)
  {
    o := WsOpts("", map[]);
    if "path" in ws && ws["path"].JString? {
      o := o.(path := ws["path"].s);
    }
    if "headers" in ws && ws["headers"].JObject? {
      var headers := CopyStringHeaders(ws["headers"].fields);
      ghost var copied := headers;
      if "host" in headers {
        var host := headers["host"];
        headers := headers["Host" := host];
        headers := headers - {"host"};
        assert headers == NormalizeHost(copied);
      }
      o := o.(headers := headers);
    }
  }

  /** Fills an `h2-opts` block from an `httpSettings` object. */
  method BuildH2Opts(h2: Object) returns (o: H2Opts)
    ensures o == H2Options(h2)
  {
    o := H2Opts([], "");
    if "path" in h2 && h2["path"].JString? {
      o := o.(path := h2["path"].s);
    }
    if "host" in h2 && h2["host"].JArray? {
      var hosts := CollectHosts(h2["host"].items);
      o := o.(host := hosts);
    }
  }

  /** Fills a `grpc-opts` block from a `grpcSettings` object. */
  method BuildGrpcOpts(grpc: Object) returns (o: GrpcOpts)
    ensures o == GrpcOptions(grpc)
  {
    o := GrpcOpts("");
    if "serviceName" in grpc && grpc["serviceName"].JString? {
      o := o.(serviceName := grpc["serviceName"].s);
    }
  }

  /** Answers `GET …/clash/:id`. `id` is the outcome of parsing the path
      parameter and `store` the records the storage layer can fetch. */
  method GetClashSub(id: Option<int>, store: map<int, Inbound>) returns (r: Result<Subscription, Error>)
    ensures r == ClashSub(id, store)
    ensures r.Failure? ==> (StatusCode(r.error) == 404 <==> r.error == InboundNotFound)
    ensures r.Success? ==> |r.value.file.proxies| == 1
  {
    if id.None? {
      return Failure(InvalidId);
    }
    if id.value !in store {
      return Failure(InboundNotFound);
    }
    var inb := store[id.value];
    if inb.protocol != "vmess" {
      return Failure(OnlyVmessSupported);
    }
    if inb.speedIp == "" || inb.speedIp == "0.0.0.0" {
      return Failure(SpeedIpNotSet);
    }

    var settings := AsObject(inb.settings);
    var stream := AsObject(inb.streamSettings);
    var uuid, alterId := ReadCredentials(settings);
    var network, security, serverName := ReadStream(stream);

    var port := if inb.speedPort > 0 then inb.speedPort else inb.port;
    var p := Proxy(
      name := inb.remark,
      proxyType := "vmess",
      server := inb.speedIp,
      port := port,
      uuid := uuid,
      alterId := alterId,
      cipher := "auto",
      tls := security == "tls" || security == "xtls",
      network := network,
      serverName := serverName,
      skipCertVerify := false,
      wsOpts := None,
      h2Opts := None,
      grpcOpts := None);

    if network == "ws" {
      if "wsSettings" in stream && stream["wsSettings"].JObject? {
        var o := BuildWsOpts(stream["wsSettings"].fields);
        p := p.(wsOpts := Some(o));
      }
    } else if network == "http" {
      if "httpSettings" in stream && stream["httpSettings"].JObject? {
        var o := BuildH2Opts(stream["httpSettings"].fields);
        p := p.(h2Opts := Some(o));
      }
    } else if network == "grpc" {
      if "grpcSettings" in stream && stream["grpcSettings"].JObject? {
        var o := BuildGrpcOpts(stream["grpcSettings"].fields);
        p := p.(grpcOpts := Some(o));
      }
    }
    assert p == BuildProxy(inb).value;

    var file := ClashFile([p]);
    var filename := "clash_" + FormatInt(inb.id) + ".yaml";
    if inb.remark != "" {
      filename := "clash_" + inb.remark + ".yaml";
    }
    r := Success(Subscription(file, filename));
  }
}
