# Clash subscription translator of x-ui, in Dafny

x-ui is a web panel for xray "inbound" listeners. Besides the record
management pages it answers `GET /xui/inbound/clash/:id` and `GET /clash/:id`
with a Clash YAML subscription for one vmess inbound. Both routes run the same
handler body, `getClashSub`, copied verbatim in `web/controller/inbound.go`
and `web/controller/index.go`. This project models that handler once and proves
what it promises.

The handler:

1. Refuses the request, in this order, when the id is not a base-10 integer
   (400), no record has that id (404), the protocol is not `vmess` (400), or
   the override address `SpeedIp` is `""` or `"0.0.0.0"` (400).
2. Decodes the two stored JSON documents. A malformed document counts as an
   empty object.
3. Reads `uuid` and `alterId` from the first entry of `settings.clients`.
   Each one falls back to `""` or `0` on its own.
4. Reads `network` and `security` from the stream document. It takes the TLS
   server name from `tlsSettings` for `"tls"` and from `xtlsSettings` for
   `"xtls"`.
5. Uses `SpeedPort` when it is positive, else `Port`.
6. Attaches at most one of `ws-opts`, `h2-opts` and `grpc-opts`. For
   `ws-opts` it copies the string headers and renames `host` to `Host`. For
   `h2-opts` it keeps the non-empty host names.
7. Wraps the entry in a one-entry `proxies` document and names the file
   `clash_<remark or id>.yaml`.

Layout:

- `wrappers.dfy`: `Option` and `Result`.
- `json.dfy`: the decoded JSON tree and Go's type assertions on it.
- `decimal.dfy`: the `%d` rendering of the id, with a reading back.
- `clash.dfy`: the inbound record, the proxy entry, the document and the
  refusals.
- `extract.dfy`: credentials, network, security and server name.
- `transport.dfy`: the option blocks.
- `builder.dfy`: the proxy entry, the file name and the whole request, as
  functions.
- `controller.dfy`: the handler as the controllers run it, with mutable
  locals, the header copy loop and the host append loop. Each method is proved
  equal to the matching function.
- `scenarios.dfy`: worked requests.

Two details of the code:

- Only the exact key `host` is renamed to `Host`. `HOST` and other spellings
  pass through unchanged, so a result can hold both `Host` and `HOST`.
- A server name counts only when `serverName` is a string. The same
  type-must-match rule holds for every field that is read.

## Model

| member | source | states |
|---|---|---|
| `Controller.GetClashSub` | web/controller/inbound.go:113-274 | The handler's answer is exactly `Builder.ClashSub`; a refusal carries status 404 for a missing record and 400 otherwise; a success holds one proxy entry |
| `Controller.ReadCredentials` | web/controller/index.go:154-167 | The `uuid`/`alterId` locals after the nested type tests equal `Extract.ClientCredentials` of the settings document |
| `Controller.ReadStream` | web/controller/index.go:168-189 | The `network`, `security` and `serverName` locals equal the string fields of the stream document and `Extract.ServerName` |
| `Controller.CopyStringHeaders` | web/controller/index.go:209-215 | The copy loop, visiting keys in any order, yields exactly the string-valued entries of `headers` |
| `Controller.BuildWsOpts` | web/controller/index.go:204-223 | The `ws-opts` block filled field by field, with the `host`→`Host` rename, equals `Transport.WsOptions` |
| `Controller.CollectHosts` | web/controller/index.go:230-235 | The append loop yields `Transport.NonEmptyStrings` of the host array |
| `Controller.BuildH2Opts` | web/controller/index.go:225-238 | The `h2-opts` block equals `Transport.H2Options` |
| `Controller.BuildGrpcOpts` | web/controller/index.go:240-246 | The `grpc-opts` block equals `Transport.GrpcOptions` |
| `Json.AsObject` | web/controller/inbound.go:163-166 | A decoded document is read as its own object; a malformed text, `null` or a non-object top level leaves an empty map |
| `Extract.TruncateTowardZero` | web/controller/inbound.go:175-176 | `int(alterId)` drops the fractional part toward zero: the result is within one of the input, on the same side of zero, and no larger in magnitude |
| `Extract.ClientCredentials` | web/controller/inbound.go:167-180 | A non-empty `uuid` is the string `id` of `clients[0]`, and a non-zero `alterId` is the truncated number `alterId` of `clients[0]`; nothing else can supply them |
| `Extract.CredentialsDefault` | web/controller/inbound.go:167-171 | Missing or non-array `clients`, an empty list, or a first entry that is not an object gives `uuid = ""`, `alterId = 0` |
| `Extract.CredentialsFromFirstClient` | web/controller/inbound.go:171-178 | With a first client object, `uuid` is its `id` if that is a string, else `""`, and `alterId` is its truncated `alterId` if that is a number, else `0`, each independently |
| `Extract.CredentialsOnlyFromFirstClient` | web/controller/index.go:156-158 | Two settings documents whose client lists start with the same entry give the same credentials, whatever the other entries and keys |
| `Extract.NetworkOf` | web/controller/inbound.go:184-186 | The network is `stream.network` verbatim when it is a string; a non-empty network always comes from that field |
| `Extract.SecurityOf` | web/controller/inbound.go:187-189 | The security kind is `stream.security` verbatim when it is a string; a non-empty kind always comes from that field |
| `Extract.TlsEnabled` | web/controller/inbound.go:211 | TLS is on exactly for the security kinds `tls` and `xtls` |
| `Extract.ServerName` | web/controller/inbound.go:190-202 | The server name is `tlsSettings.serverName` for `"tls"`, `xtlsSettings.serverName` for `"xtls"`, and `""` for any other security value |
| `Extract.ServerNameIsolated` | web/controller/index.go:177-189 | For `"tls"` the `xtlsSettings` sub-document cannot affect the server name, and the reverse for `"xtls"`; with TLS off no sub-documents make it non-empty |
| `Transport.StringEntries` | web/controller/inbound.go:223-228 | The copy holds exactly the keys of `headers` whose values are strings, each with its string |
| `Transport.NormalizeHost` | web/controller/inbound.go:229-233 | After the rename there is no `host` key; `Host` holds the old `host` value when there was one; without `host` the map is unchanged; every other key keeps its value |
| `Transport.WsHeaders` | web/controller/inbound.go:222-233 | The headers hold no `host` key; `Host` holds the string `host` value when there is one (overwriting `Host`), otherwise the string `Host` value; every other key is present exactly when its value is a string, with that value |
| `Transport.NonEmptyStrings` | web/controller/inbound.go:243-248 | The kept host names are all non-empty and no more numerous than the input entries |
| `Transport.NonEmptyStringsAppend` | web/controller/inbound.go:244 | The filter distributes over concatenation, so the kept entries stay in their input order |
| `Transport.NonEmptyStringsSingle` | web/controller/inbound.go:245-246 | A single entry is kept exactly when it is a non-empty string |
| `Transport.NonEmptyStringsMember` | web/controller/index.go:232 | A string is in the host list exactly when it is non-empty and occurs as a string entry of the input |
| `Transport.H2HostsFiltered` | web/controller/index.go:230-236 | The `h2-opts` host list has no empty names and holds exactly the non-empty string entries of `httpSettings.host` |
| `Transport.GrpcServiceName` | web/controller/inbound.go:255-257 | `grpc-opts.serviceName` is `grpcSettings.serviceName` when that is a string, else `""` |
| `Transport.WsOptions` | web/controller/inbound.go:217-236 | `ws-opts.path` is the string `path` or `""`; the headers are `WsHeaders` of a `headers` object, or empty when there is none |
| `Transport.H2Options` | web/controller/inbound.go:238-251 | `h2-opts.path` is the string `path` or `""`; the hosts are the filtered `host` array, or empty when there is none |
| `Transport.GrpcOptions` | web/controller/inbound.go:253-259 | `grpc-opts.serviceName` is the string `serviceName` or `""` |
| `Transport.TransportOptions` | web/controller/inbound.go:216-260 | `ws-opts`, `h2-opts`, `grpc-opts` are each present exactly when the network is `ws`/`http`/`grpc` and the named sub-document is an object, even an empty one; then they are read from that object; at most one is present |
| `Builder.ResolvePort` | web/controller/inbound.go:207 | The port is `SpeedPort` when it is positive, else `Port`, also for zero and negative `SpeedPort` |
| `Builder.HasSpeedIp` | web/controller/inbound.go:128 | The override address is unusable exactly when it is `""` or `"0.0.0.0"` |
| `Builder.BuildProxy` | web/controller/index.go:111-247 | A non-vmess record is refused whatever its address, then an empty or wildcard address is refused; otherwise the entry has type `vmess`, cipher `auto`, no skip-cert-verify, the remark as name, `SpeedIp` as server, the resolved port, the first client's credentials, the network copied verbatim, TLS exactly for `tls`/`xtls`, no server name without TLS, and exactly the option blocks `Transport.TransportOptions` gives for the stream's network and sub-documents |
| `Builder.Filename` | web/controller/index.go:254-257 | The name is `clash_<stem>.yaml`; the stem is the remark when it is non-empty, else a numeral that reads back as the id |
| `Builder.FilenameIsDecimal` | web/controller/inbound.go:267-270 | Without a remark the file name is exactly `clash_` + the `%d` rendering of the id + `.yaml` |
| `Builder.ClashSub` | web/controller/index.go:100-118 | An unparsable id gives `InvalidId`, an unknown id `InboundNotFound`, then the builder's refusal; a found record that builds is answered with success, holding exactly the built entry and the computed file name |
| `Builder.OneProxyPerDocument` | web/controller/index.go:248 | A successful answer holds exactly one proxy entry, the one for the requested record |
| `Builder.InvalidIdNeedsNoLookup` | web/controller/inbound.go:114-118 | An unparsable id is refused whatever the stored records are, so no lookup matters |
| `Builder.RefusalOrder` | web/controller/inbound.go:119-131 | For a stored record: non-vmess gives `OnlyVmessSupported` before the address check, a vmess record with an unusable address gives `SpeedIpNotSet`, and anything else succeeds |
| `Decimal.FormatInt` | web/controller/inbound.go:267 | The `%d` rendering is non-empty and starts with `-` exactly for negative ids |
| `Decimal.FormatIntCanonical` | web/controller/inbound.go:267 | The `%d` rendering is canonical: digits after an optional `-`, no leading zero and no `-0` |
| `Decimal.FormatIntRoundTrip` | web/controller/index.go:254 | Reading the `%d` rendering back gives the id |
| `Decimal.FormatIntInjective` | web/controller/inbound.go:267 | Different ids render differently |
| `Clash.Message` | web/controller/inbound.go:116-129 | Every refusal is answered with a non-empty text; the texts are the handler's `invalid id`, `inbound not found`, `only vmess supported` and `speed ip not set` |
| `Clash.MessageIdentifiesError` | web/controller/index.go:103-116 | Different refusals have different texts, so the body names the refusal |
| `Clash.StatusCode` | web/controller/index.go:101-118 | A missing record is answered with 404 and every other refusal with 400 |
| `Scenarios.WebSocketTlsCredentials` | web/controller/inbound.go:167-180 | The websocket record's first client gives `uuid` `abc-123` and `alterId` 0 |
| `Scenarios.WebSocketTlsOptions` | web/controller/inbound.go:216-236 | Its `wsSettings` give only `ws-opts` with path `/ws` and the `Host` header kept |
| `Scenarios.WebSocketTlsEntry` | web/controller/inbound.go:203-215 | A vmess websocket+TLS record at 1.2.3.4:443 yields exactly the expected entry: that server, port, uuid, TLS, server name and ws block, and no other block |
| `Scenarios.WebSocketTlsFilename` | web/controller/inbound.go:268-270 | Its remark `srv1` names the file `clash_srv1.yaml` |
| `Scenarios.WebSocketTlsAnswer` | web/controller/inbound.go:261 | The request for its id is answered with the one-entry document and that file name |
| `Scenarios.ExampleHeaders` | web/controller/inbound.go:230 | A header object holding only `Host` is copied unchanged |
| `Scenarios.WildcardAddressRefused` | web/controller/inbound.go:128-131 | The same record with address `0.0.0.0` is refused with `SpeedIpNotSet` |
| `Scenarios.OtherProtocolRefused` | web/controller/inbound.go:124-127 | The same record with protocol `vless` is refused with `OnlyVmessSupported` |
| `Scenarios.GrpcEntry` | web/controller/inbound.go:252-259 | A gRPC record without a remark yields `grpc-opts` with service `svc`, no other block, TLS off, in `clash_7.yaml` |
| `Scenarios.UnparsableIdRefused` | web/controller/inbound.go:114-117 | An unparsable id is answered with `InvalidId`, status 400 |

## Left out

- HTTP plumbing is not modelled: gin routing, the response headers (`Content-Type`, `Content-Disposition`) and writing the body. The model stops at the document and the file name. For a refusal it does give the status (`Clash.StatusCode`) and the plain-text message (`Clash.Message`) that the handler passes to `c.String`.
- YAML encoding is not modelled: `yaml.Marshal`, `omitempty` and its 500 "build yaml failed" path. `yaml.Marshal` is a library call, and it cannot fail on this record type.
- JSON decoding is not modelled. Each stored document is given as its decoded tree, with `None` for malformed text. `json.Unmarshal` is a library call.
- `strconv.Atoi` is not modelled. The id arrives already parsed, as an `Option<int>`.
- The storage layer is not modelled. `GetInbound` is a lookup in a map of records, and a failed lookup of any kind is an absent key.
- Floating point is not modelled. JSON numbers are exact rationals, and `int(float64)` is truncation toward zero. Rounding on decoding, and out-of-range conversion, are not captured.
- Go strings are byte strings, and here they are `seq<char>`. No behaviour is lost: the handler only compares strings, tests them for emptiness and joins them.
- Go's 64-bit `int` is unbounded `int`. The handler does no arithmetic on it.
- Go's random map iteration order is modelled by visiting keys in any order. The copy's result does not depend on the order.
- A nil header map and an empty one are both the empty map. A nil host slice and an empty one are both the empty sequence. `omitempty` writes them the same way.
- The CRUD handlers are not modelled (`getInbounds`, `addInbound`, `delInbound`, `updateInbound`). They are thin wrappers over the storage service.
- Login, logout, the index page and the `xui.go` pages are not modelled. They are sessions and HTML rendering.
- The every-10-seconds xray restart task is not modelled. It is timer-driven and calls external services.
