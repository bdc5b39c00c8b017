/** Reading the client credentials from the protocol settings document and
    the transport and security kinds from the stream settings document.
    Every shape mismatch falls back to a default; nothing here fails. */
module Extract {
  import opened Wrappers
  import opened Json

  /** The first client's `id` and `alterId`. */
  datatype Credentials = Credentials(uuid: string, alterId: int)

  /** Go's conversion `int(x)` of a float64: the fractional part is
      discarded, rounding toward zero. */
  function TruncateTowardZero(x: real): (n: int)
    ensures 0.0 <= x ==> 0 <= n && n as real <= x < n as real + 1.0
    ensures x < 0.0 ==> n <= 0 && n as real - 1.0 < x <= n as real
  {
    if x >= 0.0 then x.Floor else -((-x).Floor)
  }

  /** `settings["clients"]` as a non-empty array whose first entry is an
      object: that object, else None. */
  function FirstClient(settings: Object): Option<Object>
  {
    match ArrayAt(settings, "clients")
    case Some(clients) =>
      if |clients| > 0 && clients[0].JObject? then Some(clients[0].fields) else None
    case None => None
  }

  /** The credentials of the first client; each field falls back on its own
      to `""` or `0`. */
  function ClientCredentials(settings: Object): (c: Credentials)
    ensures c.uuid != "" ==>
      && "clients" in settings && settings["clients"].JArray?
      && |settings["clients"].items| > 0 && settings["clients"].items[0].JObject?
      && "id" in settings["clients"].items[0].fields
      && settings["clients"].items[0].fields["id"] == JString(c.uuid)
    ensures c.alterId != 0 ==>
      && "clients" in settings && settings["clients"].JArray?
      && |settings["clients"].items| > 0 && settings["clients"].items[0].JObject?
      && "alterId" in settings["clients"].items[0].fields
      && settings["clients"].items[0].fields["alterId"].JNumber?
      && c.alterId == TruncateTowardZero(settings["clients"].items[0].fields["alterId"].n)
  {
    match FirstClient(settings)
    case None => Credentials("", 0)
    case Some(client) =>
      var alterId := match NumberAt(client, "alterId")
        case Some(x) => TruncateTowardZero(x)
        case None => 0;
      Credentials(StringOr(client, "id", ""), alterId)
  }

  /** Missing, mistyped or empty `clients`, or a first entry that is not an
      object, gives the empty credentials. */
  lemma CredentialsDefault(settings: Object)
    requires !("clients" in settings && settings["clients"].JArray?)
             || settings["clients"].items == []
             || !settings["clients"].items[0].JObject?
    ensures ClientCredentials(settings) == Credentials("", 0)
  {
  }

  /** With a first client object, each field is read from it alone and falls
      back independently when it is missing or has the wrong type. */
  lemma CredentialsFromFirstClient(settings: Object, client: Object)
    requires "clients" in settings && settings["clients"].JArray?
    requires |settings["clients"].items| > 0
    requires settings["clients"].items[0] == JObject(client)
    ensures ClientCredentials(settings).uuid
            == if "id" in client && client["id"].JString? then client["id"].s else ""
    ensures ClientCredentials(settings).alterId
            == if "alterId" in client && client["alterId"].JNumber?
               then TruncateTowardZero(client["alterId"].n) else 0
  {
  }

  /** Only the first client matters: two settings documents whose client
      lists begin with the same entry yield the same credentials, whatever
      follows it and whatever else the documents hold. */
  lemma CredentialsOnlyFromFirstClient(s1: Object, s2: Object)
    requires "clients" in s1 && s1["clients"].JArray? && |s1["clients"].items| > 0
    requires "clients" in s2 && s2["clients"].JArray? && |s2["clients"].items| > 0
    requires s1["clients"].items[0] == s2["clients"].items[0]
    ensures ClientCredentials(s1) == ClientCredentials(s2)
  {
  }

  /** `stream["network"]` when it is a string, kept verbatim; else `""`. */
  function NetworkOf(stream: Object): (network: string)
    ensures "network" in stream && stream["network"].JString? ==> network == stream["network"].s
    ensures network != "" ==> "network" in stream && stream["network"] == JString(network)
  {
    StringOr(stream, "network", "")
  }

  /** `stream["security"]` when it is a string; else `""`. */
  function SecurityOf(stream: Object): (security: string)
    ensures "security" in stream && stream["security"].JString? ==> security == stream["security"].s
    ensures security != "" ==> "security" in stream && stream["security"] == JString(security)
  {
    StringOr(stream, "security", "")
  }

  /** TLS is on for the security kinds "tls" and "xtls" and for no other. */
  predicate TlsEnabled(security: string)
    ensures TlsEnabled(security) <==> security in {"tls", "xtls"}
  {
    security == "tls" || security == "xtls"
  }

  /** `serverName` of the sub-document `sub`, when both are present with the
      right types; else `""`. */
  function SubDocumentServerName(stream: Object, sub: string): string
  {
    match ObjectAt(stream, sub)
    case Some(doc) => StringOr(doc, "serverName", "")
    case None => ""
  }

  /** The TLS server name: read from `tlsSettings` for "tls", from
      `xtlsSettings` for "xtls", and empty for every other security kind. */
  function ServerName(security: string, stream: Object): (sni: string)
    ensures !TlsEnabled(security) ==> sni == ""
    ensures security == "tls" ==> sni == SubDocumentServerName(stream, "tlsSettings")
    ensures security == "xtls" ==> sni == SubDocumentServerName(stream, "xtlsSettings")
  {
    if security == "tls" then SubDocumentServerName(stream, "tlsSettings")
    else if security == "xtls" then SubDocumentServerName(stream, "xtlsSettings")
    else ""
  }

  /** The server name is never taken from the sub-document of the other kind:
      replacing it by anything leaves the result unchanged, and with TLS off
      no sub-document can make it non-empty. */
  lemma ServerNameIsolated(security: string, stream: Object, other: Json)
    ensures security == "tls" ==>
      ServerName(security, stream["xtlsSettings" := other]) == ServerName(security, stream)
    ensures security == "xtls" ==>
      ServerName(security, stream["tlsSettings" := other]) == ServerName(security, stream)
    ensures !TlsEnabled(security) ==>
      ServerName(security, stream["tlsSettings" := other]["xtlsSettings" := other]) == ""
  {
  }
}
