/** The transport option block: `ws-opts`, `h2-opts` or `grpc-opts`, chosen by
    the network kind and read from the sub-document named for it. */
module Transport {
  import opened Wrappers
  import opened Json
  import opened Clash

  /** The entries of a decoded `headers` object whose values are strings;
      entries of any other type are dropped. */
  function StringEntries(hdrs: Object): (h: map<string, string>)
    ensures h.Keys <= hdrs.Keys
    ensures forall k :: k in hdrs && hdrs[k].JString? ==> k in h
    ensures forall k :: k in h ==> hdrs[k] == JString(h[k])
  {
    map k | k in hdrs && hdrs[k].JString? :: hdrs[k].s
  }

  /** Moves the value of the exact key "host" to "Host", overwriting any
      "Host" already there. No other spelling of the key is touched. */
  function NormalizeHost(h: map<string, string>): (r: map<string, string>)
    ensures "host" !in r
    ensures "host" in h ==> "Host" in r && r["Host"] == h["host"]
    ensures "host" !in h ==> r == h
    ensures forall k :: k in h && k != "host" && k != "Host" ==> k in r && r[k] == h[k]
    ensures forall k :: k in r && k != "Host" ==> k in h && r[k] == h[k]
  {
    if "host" in h then (h - {"host"})["Host" := h["host"]] else h
  }

  /** The `ws-opts` headers for a decoded `headers` object. */
  function WsHeaders(hdrs: Object): (h: map<string, string>)
    ensures "host" !in h
    ensures "host" in hdrs && hdrs["host"].JString? ==>
      "Host" in h && h["Host"] == hdrs["host"].s
    ensures !("host" in hdrs && hdrs["host"].JString?) && "Host" in hdrs && hdrs["Host"].JString? ==>
      "Host" in h && h["Host"] == hdrs["Host"].s
    ensures "Host" in h <==>
      ("host" in hdrs && hdrs["host"].JString?) || ("Host" in hdrs && hdrs["Host"].JString?)
    ensures forall k :: k != "host" && k != "Host" ==>
      (k in h <==> k in hdrs && hdrs[k].JString?)
    ensures forall k :: k in h && k != "Host" ==> k in hdrs && hdrs[k] == JString(h[k])
  {
    NormalizeHost(StringEntries(hdrs))
  }

  /** Keeps the string entries of `xs` that are not empty, in order.
      Defined from the end, the way the handler appends to its list. */
  function NonEmptyStrings(xs: seq<Json>): (r: seq<string>)
    ensures |r| <= |xs|
    ensures forall i :: 0 <= i < |r| ==> r[i] != ""
    decreases |xs|
  {
    if xs == [] then []
    else
      var last := xs[|xs| - 1];
      NonEmptyStrings(xs[..|xs| - 1]) + (if last.JString? && last.s != "" then [last.s] else [])
  }

  /** The filter distributes over concatenation: the kept entries of `a`
      come, in their order, before those of `b`. */
  lemma {:induction false} NonEmptyStringsAppend(a: seq<Json>, b: seq<Json>)
    ensures NonEmptyStrings(a + b) == NonEmptyStrings(a) + NonEmptyStrings(b)
    decreases |b|
  {
    if b == [] {
      assert a + b == a;
    } else {
      var b' := b[..|b| - 1];
      assert (a + b)[..|a + b| - 1] == a + b';
      assert (a + b)[|a + b| - 1] == b[|b| - 1];
      NonEmptyStringsAppend(a, b');
    }
  }

  /** A one-entry list keeps its entry exactly when it is a non-empty string. */
  lemma NonEmptyStringsSingle(x: Json)
    ensures NonEmptyStrings([x]) == if x.JString? && x.s != "" then [x.s] else []
  {
  }

  /** Membership: a string is kept exactly when it is non-empty and occurs
      as a string entry of the input. */
  lemma {:induction false} NonEmptyStringsMember(xs: seq<Json>, s: string)
    ensures s in NonEmptyStrings(xs) <==> s != "" && JString(s) in xs
    decreases |xs|
  {
    if xs != [] {
      var init := xs[..|xs| - 1];
      NonEmptyStringsMember(init, s);
      assert xs == init + [xs[|xs| - 1]];
    }
  }

  /** `ws-opts` for a `wsSettings` object. Every field falls back to empty. */
  function WsOptions(ws: Object): (o: WsOpts)
    ensures o.path == if "path" in ws && ws["path"].JString? then ws["path"].s else ""
    ensures "headers" in ws && ws["headers"].JObject? ==> o.headers == WsHeaders(ws["headers"].fields)
    ensures !("headers" in ws && ws["headers"].JObject?) ==> o.headers == map[]
  {
    var headers := match ObjectAt(ws, "headers")
      case Some(hdrs) => WsHeaders(hdrs)
      case None => map[];
    WsOpts(StringOr(ws, "path", ""), headers)
  }

  /** `h2-opts` for an `httpSettings` object. Every field falls back to empty. */
  function H2Options(h2: Object): (o: H2Opts)
    ensures o.path == if "path" in h2 && h2["path"].JString? then h2["path"].s else ""
    ensures "host" in h2 && h2["host"].JArray? ==> o.host == NonEmptyStrings(h2["host"].items)
    ensures !("host" in h2 && h2["host"].JArray?) ==> o.host == []
  {
    var hosts := match ArrayAt(h2, "host")
      case Some(xs) => NonEmptyStrings(xs)
      case None => [];
    H2Opts(hosts, StringOr(h2, "path", ""))
  }

  /** `grpc-opts` for a `grpcSettings` object. */
  function GrpcOptions(grpc: Object): (o: GrpcOpts)
    ensures "serviceName" in grpc && grpc["serviceName"].JString? ==> o.serviceName == grpc["serviceName"].s
    ensures !("serviceName" in grpc && grpc["serviceName"].JString?) ==> o.serviceName == ""
  {
    GrpcOpts(StringOr(grpc, "serviceName", ""))
  }

  /** The three optional blocks of a proxy entry. */
  datatype TransportOpts = TransportOpts(ws: Option<WsOpts>, h2: Option<H2Opts>, grpc: Option<GrpcOpts>)

  /** At most one block, the one the network names, and only when its
      sub-document is an object; it is then read from that object. */
  function TransportOptions(network: string, stream: Object): (o: TransportOpts)
    ensures o.ws.Some? <==> network == "ws" && ObjectAt(stream, "wsSettings").Some?
    ensures o.h2.Some? <==> network == "http" && ObjectAt(stream, "httpSettings").Some?
    ensures o.grpc.Some? <==> network == "grpc" && ObjectAt(stream, "grpcSettings").Some?
    ensures o.ws.Some? ==> o.ws.value == WsOptions(stream["wsSettings"].fields)
    ensures o.h2.Some? ==> o.h2.value == H2Options(stream["httpSettings"].fields)
    ensures o.grpc.Some? ==> o.grpc.value == GrpcOptions(stream["grpcSettings"].fields)
    ensures !(o.ws.Some? && o.h2.Some?) && !(o.ws.Some? && o.grpc.Some?) && !(o.h2.Some? && o.grpc.Some?)
  {
    var none := TransportOpts(None, None, None);
    if network == "ws" then
      match ObjectAt(stream, "wsSettings")
      case Some(ws) => none.(ws := Some(WsOptions(ws)))
      case None => none
    else if network == "http" then
      match ObjectAt(stream, "httpSettings")
      case Some(h2) => none.(h2 := Some(H2Options(h2)))
      case None => none
    else if network == "grpc" then
      match ObjectAt(stream, "grpcSettings")
      case Some(grpc) => none.(grpc := Some(GrpcOptions(grpc)))
      case None => none
    else none
  }

  /** The `h2-opts` host list is exactly the non-empty string entries of
      `httpSettings.host`, in their order. */
  lemma H2HostsFiltered(h2: Object, s: string)
    requires "host" in h2 && h2["host"].JArray?
    ensures forall i :: 0 <= i < |H2Options(h2).host| ==> H2Options(h2).host[i] != ""
    ensures s in H2Options(h2).host <==> s != "" && JString(s) in h2["host"].items
  {
    NonEmptyStringsMember(h2["host"].items, s);
  }

  /** `grpc-opts.serviceName` is `grpcSettings.serviceName` when that is a
      string, else empty. */
  lemma GrpcServiceName(grpc: Object)
    ensures GrpcOptions(grpc).serviceName
            == if "serviceName" in grpc && grpc["serviceName"].JString? then grpc["serviceName"].s else ""
  {
  }
}
