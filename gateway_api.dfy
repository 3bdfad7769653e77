/**
 * The gateway part of the cloud API (src/konexios/api/gateway/gateway.c):
 * the request each `_*_init` callback prepares (method, URI formatted into a
 * chunk of URI_LEN characters, body) and the decisions the `_*_proc`
 * callbacks take on the response.
 */
module GatewayApi {
  import opened Wrappers
  import opened Json
  import PD = PropertyDynamic
  import HttpRequest

  const NUL: char := '\0'

  /** KONEXIOS_API_GATEWAY_ENDPOINT. */
  const Endpoint: string := "/api/v1/kronos/gateways"

  /** URI_LEN: sizeof the endpoint literal (its characters and the NUL) plus 100. */
  const UriLen: nat := |Endpoint| + 1 + 100

  /** Positions of the request methods in the method enumeration. */
  const GET: nat := 0
  const POST: nat := 1
  const PUT: nat := 2

  lemma MethodNames()
    ensures HttpRequest.GetEntry(HttpRequest.Methods, GET) == Some("GET")
    ensures HttpRequest.GetEntry(HttpRequest.Methods, POST) == Some("POST")
    ensures HttpRequest.GetEntry(HttpRequest.Methods, PUT) == Some("PUT")
    ensures UriLen == 124
  {
  }

  // ---------------------------------------------------------------------
  // The URI chunk
  // ---------------------------------------------------------------------

  /** What snprintf leaves in a chunk of UriLen characters: at most UriLen - 1 of them. */
  function Truncated(text: string): (r: string)
    ensures |r| < UriLen && r <= text
    ensures |text| < UriLen ==> r == text
  {
    if |text| < UriLen then text else text[..UriLen - 1]
  }

  /** The formatted text fits the chunk with its terminator. */
  predicate FitsUri(text: string)
  {
    |text| < UriLen
  }

  /**
   * The index `uri[ret] = 0x0` writes, gateway.c as written: snprintf's
   * return value, the length of the whole formatted text, whenever it is
   * positive. It is inside the chunk only when the text fits.
   */
  function TerminatorIndexAsWritten(text: string): (r: Option<nat>)
    ensures r.Some? <==> |text| > 0
    ensures r.Some? ==> (r.value < UriLen <==> FitsUri(text))
  {
    if |text| > 0 then Some(|text|) else None
  }

  /**
   * The snprintf into a fresh chunk, followed by the terminator write guarded
   * so that it stays inside the chunk; the result is the C string the chunk
   * then holds.
   */
  method FormatUri(text: string) returns (uri: string, ret: int)
    requires NUL !in text
    ensures ret == |text|
    ensures uri == Truncated(text)
    ensures FitsUri(text) ==> uri == text
  {
    var chunk := new char[UriLen];
    var n := if |text| < UriLen then |text| else UriLen - 1;
    var i := 0;
    while i < n
      invariant 0 <= i <= n
      invariant chunk[..i] == text[..i]
    {
      chunk[i] := text[i];
      i := i + 1;
    }
    chunk[n] := NUL;
    ret := |text|;
    if 0 < ret < UriLen {
      chunk[ret] := NUL;
    }
    assert chunk[..n] == text[..n];
    PD.StrLenAt(chunk[..], n);
    uri := PD.CString(chunk[..]);
  }

  // ---------------------------------------------------------------------
  // Paths
  // ---------------------------------------------------------------------

  /** The gateway resources addressed below ENDPOINT/hid. */
  datatype Resource = Config | Heartbeat | Checkin | Find | Devices | Logs | Errors | Update

  /** The path after the hid; find and update address the gateway itself. */
  function Suffix(r: Resource): string
  {
    match r
    case Config => "/config"
    case Heartbeat => "/heartbeat"
    case Checkin => "/checkin"
    case Find => ""
    case Devices => "/devices"
    case Logs => "/logs"
    case Errors => "/errors"
    case Update => ""
  }

  /** The text of "%s/%s<suffix>" with the endpoint and the hid. */
  function GatewayUriText(hid: string, r: Resource): string
  {
    Endpoint + "/" + hid + Suffix(r)
  }

  /** The text of "%s/%s/devices/%s/actions/command". */
  function DeviceCommandText(gatewayHid: string, deviceHid: string): string
  {
    Endpoint + "/" + gatewayHid + "/devices/" + deviceHid + "/actions/command"
  }

  /** The first index at or after `from` where s holds c, if any. */
  function IndexFrom(s: string, c: char, from: nat): (r: Option<nat>)
    requires from <= |s|
    ensures r.Some? ==> from <= r.value < |s| && s[r.value] == c && c !in s[from..r.value]
    ensures r.None? ==> c !in s[from..]
    decreases |s| - from
  {
    if from == |s| then None
    else if s[from] == c then Some(from)
    else IndexFrom(s, c, from + 1)
  }

  /** Reads a URI below the endpoint back as its hid and the path after it. */
  function ParseGatewayUri(uri: string): (r: Option<(string, string)>)
    ensures r.Some? ==> '/' !in r.value.0 && uri == Endpoint + "/" + r.value.0 + r.value.1
    ensures r.Some? ==> r.value.1 == [] || r.value.1[0] == '/'
  {
    var base := Endpoint + "/";
    if !(base <= uri) then None
    else
      var rest := uri[|base|..];
      assert uri == base + rest;
      match IndexFrom(rest, '/', 0)
      case None => Some((rest, ""))
      case Some(k) =>
        assert rest == rest[..k] + rest[k..];
        Some((rest[..k], rest[k..]))
  }

  /** IndexFrom finds the first c at or after from. */
  lemma {:induction false} IndexFromFirst(s: string, c: char, from: nat, k: nat)
    requires from <= k <= |s|
    requires c !in s[from..k]
    requires k < |s| ==> s[k] == c
    ensures IndexFrom(s, c, from) == if k < |s| then Some(k) else None
    decreases k - from
  {
    if from < k {
      assert s[from] in s[from..k];
      assert s[from + 1..k] <= s[from..k][1..];
      IndexFromFirst(s, c, from + 1, k);
    }
  }

  lemma IndexOfFirstSlash(hid: string, tail: string)
    requires '/' !in hid
    requires tail == [] || tail[0] == '/'
    ensures IndexFrom(hid + tail, '/', 0) == if tail == [] then None else Some(|hid|)
  {
    var s := hid + tail;
    assert s[0..|hid|] == hid;
    IndexFromFirst(s, '/', 0, |hid|);
  }

  /** A hid without '/' followed by a path that is empty or starts with '/' reads back as both. */
  lemma ParseBelowEndpoint(hid: string, tail: string)
    requires '/' !in hid
    requires tail == [] || tail[0] == '/'
    ensures ParseGatewayUri(Endpoint + "/" + hid + tail) == Some((hid, tail))
  {
    var base := Endpoint + "/";
    var uri := base + hid + tail;
    var rest := hid + tail;
    assert uri == base + rest;
    assert base <= uri;
    assert uri[|base|..] == rest;
    IndexOfFirstSlash(hid, tail);
    if tail != [] {
      assert rest[..|hid|] == hid;
      assert rest[|hid|..] == tail;
    } else {
      assert rest == hid;
    }
  }

  /** Every gateway URI reads back as its hid and its resource's suffix. */
  lemma GatewayUriRoundTrip(hid: string, r: Resource)
    requires '/' !in hid
    ensures ParseGatewayUri(GatewayUriText(hid, r)) == Some((hid, Suffix(r)))
  {
    assert Suffix(r) == [] || Suffix(r)[0] == '/';
    ParseBelowEndpoint(hid, Suffix(r));
  }

  /** The device command URI reads back as the gateway hid and the device path. */
  lemma DeviceCommandRoundTrip(gatewayHid: string, deviceHid: string)
    requires '/' !in gatewayHid
    ensures ParseGatewayUri(DeviceCommandText(gatewayHid, deviceHid))
            == Some((gatewayHid, "/devices/" + deviceHid + "/actions/command"))
  {
    var tail := "/devices/" + deviceHid + "/actions/command";
    assert DeviceCommandText(gatewayHid, deviceHid) == Endpoint + "/" + gatewayHid + tail;
    ParseBelowEndpoint(gatewayHid, tail);
  }

  /** Distinct hids, or resources with distinct paths, give distinct URIs. */
  lemma GatewayUriInjective(h1: string, r1: Resource, h2: string, r2: Resource)
    requires '/' !in h1 && '/' !in h2
    requires GatewayUriText(h1, r1) == GatewayUriText(h2, r2)
    ensures h1 == h2 && Suffix(r1) == Suffix(r2)
  {
    GatewayUriRoundTrip(h1, r1);
    GatewayUriRoundTrip(h2, r2);
  }

  /**
   * As written, a hid of 93 characters or more makes the config URI's
   * terminator write land outside the chunk of UriLen characters.
   */
  lemma ConfigTerminatorPastChunk(hid: string)
    requires |hid| >= 93
    ensures TerminatorIndexAsWritten(GatewayUriText(hid, Config)).Some?
    ensures TerminatorIndexAsWritten(GatewayUriText(hid, Config)).value >= UriLen
  {
  }

  /** With a hid of at most 89 characters every gateway URI fits its chunk. */
  lemma ShortHidFits(hid: string, r: Resource)
    requires |hid| <= 89
    ensures FitsUri(GatewayUriText(hid, r))
    ensures Truncated(GatewayUriText(hid, r)) == GatewayUriText(hid, r)
  {
  }

  // ---------------------------------------------------------------------
  // The prepared requests
  // ---------------------------------------------------------------------

  /** The request body: none, a property set as payload (possibly empty), or a JSON object encoded. */
  datatype Body = NoBody | Encoded(text: Option<string>) | JsonBody(doc: Json)

  /** What an init callback leaves in the request. */
  datatype Prepared = Prepared(meth: nat, uri: string, body: Body, findBy: seq<(string, string)>)

  /** An init callback that addresses a resource below the gateway's hid. */
  function GatewayRequest(hid: string, r: Resource, body: Body, findBy: seq<(string, string)>): (p: Prepared)
    ensures p.uri == Truncated(GatewayUriText(hid, r)) && p.body == body && p.findBy == findBy
    ensures p.meth == (if r in {Heartbeat, Checkin, Update} then PUT else if r == Errors then POST else GET)
  {
    var m := match r
      case Config => GET
      case Find => GET
      case Devices => GET
      case Logs => GET
      case Heartbeat => PUT
      case Checkin => PUT
      case Update => PUT
      case Errors => POST;
    Prepared(m, Truncated(GatewayUriText(hid, r)), body, findBy)
  }

  function ConfigInit(hid: string): Prepared { GatewayRequest(hid, Config, NoBody, []) }
  function HeartbeatInit(hid: string): Prepared { GatewayRequest(hid, Heartbeat, NoBody, []) }
  function CheckinInit(hid: string): Prepared { GatewayRequest(hid, Checkin, NoBody, []) }
  function FindInit(hid: string): Prepared { GatewayRequest(hid, Find, NoBody, []) }
  function DevicesListInit(hid: string): Prepared { GatewayRequest(hid, Devices, NoBody, []) }

  function LogsListInit(hid: string, findBy: seq<(string, string)>): Prepared
  {
    GatewayRequest(hid, Logs, NoBody, findBy)
  }

  /** The errors request's body: {"error": error}. */
  function ErrorsInit(hid: string, error: string): Prepared
  {
    GatewayRequest(hid, Errors, JsonBody(MakeObject([("error", JString(error))])), [])
  }

  /** The update request carries the serialized gateway, even when it is empty. */
  function UpdateInit(hid: string, serialized: Option<string>): Prepared
  {
    GatewayRequest(hid, Update, Encoded(serialized), [])
  }

  /** find_by: GET on the endpoint itself with the search parameters. */
  function FindByInit(findBy: seq<(string, string)>): (p: Prepared)
    ensures p.meth == GET && p.uri == Endpoint && p.body == NoBody && p.findBy == findBy
  {
    Prepared(GET, Endpoint, NoBody, findBy)
  }

  /** The device command body: command, deviceHid and payload, in that order. */
  function CommandBody(deviceHid: string, cmd: string, payload: string): Json
  {
    MakeObject([("command", JString(cmd)), ("deviceHid", JString(deviceHid)), ("payload", JString(payload))])
  }

  function DeviceCommandInit(gatewayHid: string, deviceHid: string, cmd: string, payload: string): (p: Prepared)
    ensures p.meth == GET && p.uri == Truncated(DeviceCommandText(gatewayHid, deviceHid)) && p.findBy == []
    ensures p.body == JsonBody(CommandBody(deviceHid, cmd, payload))
  {
    Prepared(GET, Truncated(DeviceCommandText(gatewayHid, deviceHid)), JsonBody(CommandBody(deviceHid, cmd, payload)), [])
  }

  /** The command body lists its three members in order and each reads back. */
  lemma CommandBodyMembers(deviceHid: string, cmd: string, payload: string)
    ensures var b := CommandBody(deviceHid, cmd, payload);
      b.JObject? && |b.members| == 3
      && b.members[0].key == "command" && b.members[1].key == "deviceHid" && b.members[2].key == "payload"
    ensures FindMember(CommandBody(deviceHid, cmd, payload), "command") == Some(JString(cmd))
    ensures FindMember(CommandBody(deviceHid, cmd, payload), "deviceHid") == Some(JString(deviceHid))
    ensures FindMember(CommandBody(deviceHid, cmd, payload), "payload") == Some(JString(payload))
  {
    var pairs := [("command", JString(cmd)), ("deviceHid", JString(deviceHid)), ("payload", JString(payload))];
    FindInMadeObject(pairs, 0);
    FindInMadeObject(pairs, 1);
    FindInMadeObject(pairs, 2);
  }

  /** Register: consults the gateway's uid and then its serialization. */
  datatype RegisterPlan = RegisterPlan(preparesGateway: bool, request: Prepared)

  function RegisterInit(uidEmpty: bool, serialized: Option<string>): (p: RegisterPlan)
    ensures p.preparesGateway <==> uidEmpty
    ensures p.request.meth == POST && p.request.uri == Endpoint && p.request.findBy == []
    ensures p.request.body == NoBody <==> serialized.None?
    ensures serialized.Some? ==> p.request.body == Encoded(serialized)
  {
    RegisterPlan(uidEmpty, Prepared(POST, Endpoint, if serialized.None? then NoBody else Encoded(serialized), []))
  }

  /** A request below the hid reads back as that hid and its resource's suffix. */
  lemma GatewayRequestReadsBack(hid: string, r: Resource, body: Body, findBy: seq<(string, string)>)
    requires '/' !in hid && |hid| <= 89
    ensures ParseGatewayUri(GatewayRequest(hid, r, body, findBy).uri) == Some((hid, Suffix(r)))
  {
    ShortHidFits(hid, r);
    GatewayUriRoundTrip(hid, r);
  }

  /**
   * The table of methods and paths: each gateway request reads back as its
   * hid and resource when the hid has no '/' and at most 89 characters.
   */
  lemma RequestTable(hid: string, error: string, serialized: Option<string>)
    requires '/' !in hid && |hid| <= 89
    ensures ConfigInit(hid).meth == GET && ParseGatewayUri(ConfigInit(hid).uri) == Some((hid, "/config"))
    ensures HeartbeatInit(hid).meth == PUT && ParseGatewayUri(HeartbeatInit(hid).uri) == Some((hid, "/heartbeat"))
    ensures CheckinInit(hid).meth == PUT && ParseGatewayUri(CheckinInit(hid).uri) == Some((hid, "/checkin"))
    ensures FindInit(hid).meth == GET && ParseGatewayUri(FindInit(hid).uri) == Some((hid, ""))
    ensures DevicesListInit(hid).meth == GET && ParseGatewayUri(DevicesListInit(hid).uri) == Some((hid, "/devices"))
    ensures ErrorsInit(hid, error).meth == POST && ParseGatewayUri(ErrorsInit(hid, error).uri) == Some((hid, "/errors"))
    ensures FindMember(ErrorsInit(hid, error).body.doc, "error") == Some(JString(error))
    ensures UpdateInit(hid, serialized).meth == PUT && ParseGatewayUri(UpdateInit(hid, serialized).uri) == Some((hid, ""))
    ensures UpdateInit(hid, serialized).body == Encoded(serialized)
  {
    GatewayRequestReadsBack(hid, Config, NoBody, []);
    GatewayRequestReadsBack(hid, Heartbeat, NoBody, []);
    GatewayRequestReadsBack(hid, Checkin, NoBody, []);
    GatewayRequestReadsBack(hid, Find, NoBody, []);
    GatewayRequestReadsBack(hid, Devices, NoBody, []);
    GatewayRequestReadsBack(hid, Errors, ErrorsInit(hid, error).body, []);
    GatewayRequestReadsBack(hid, Update, Encoded(serialized), []);
    FindInMadeObject([("error", JString(error))], 0);
  }

  // ---------------------------------------------------------------------
  // The response callbacks
  // ---------------------------------------------------------------------

  /**
   * Register: the parse result is only consulted after a 200; a negative
   * parse result is a failure.
   */
  function RegisterProc(code: int, parseResult: int): (r: int)
    ensures r == 0 || r == -1
    ensures r == 0 <==> code == 200 && parseResult >= 0
  {
    if code != 200 then -1
    else if parseResult < 0 then -1
    else 0
  }

  lemma RegisterIgnoresParseOnError(code: int, p1: int, p2: int)
    requires code != 200
    ensures RegisterProc(code, p1) == RegisterProc(code, p2) == -1
  {
  }

  function UpdateProc(code: int): (r: int)
    ensures r == 0 <==> code == 200
    ensures r != 0 ==> r == -1
  {
    if code != 200 then -1 else 0
  }

  /** The cloud the gateway is configured for; the reset value is DefaultCloud. */
  datatype CloudType = DefaultCloud | IoT

  /** A call into the key store made while reading the configuration. */
  datatype KeyCall =
    | SetApiKey(key: Option<string>)
    | SetSecretKey(key: Option<string>)
    | SaveKeySetting(api: Option<string>, secret: Option<string>)

  /**
   * The string a key node carries; None when the node is not a string, in
   * which case the text that is passed on is not determined by the model.
   */
  function NodeText(j: Json): Option<string>
  {
    if j.JString? then Some(j.s) else None
  }

  datatype ConfigOutcome = ConfigOutcome(ret: int, cloud: CloudType, calls: seq<KeyCall>)

  /** The key-store calls made for a "key" object, in order. */
  function KeyCalls(keyNode: Json): (calls: seq<KeyCall>)
    ensures var api := FindMember(keyNode, "apiKey");
      (api.Some? ==> SetApiKey(NodeText(api.value)) in calls)
      && forall c :: c in calls && c.SetApiKey? ==> api.Some? && c == SetApiKey(NodeText(api.value))
    ensures var sec := FindMember(keyNode, "secretKey");
      (sec.Some? ==> SetSecretKey(NodeText(sec.value)) in calls)
      && forall c :: c in calls && c.SetSecretKey? ==> sec.Some? && c == SetSecretKey(NodeText(sec.value))
    ensures var api := FindMember(keyNode, "apiKey"); var sec := FindMember(keyNode, "secretKey");
      (forall c :: c in calls && c.SaveKeySetting? ==> api.Some? && sec.Some?)
      && (api.Some? && sec.Some? ==> calls == [SetApiKey(NodeText(api.value)), SetSecretKey(NodeText(sec.value)),
                                              SaveKeySetting(NodeText(api.value), NodeText(sec.value))])
  {
    var api := FindMember(keyNode, "apiKey");
    var sec := FindMember(keyNode, "secretKey");
    (if api.Some? then [SetApiKey(NodeText(api.value))] else [])
    + (if sec.Some? then [SetSecretKey(NodeText(sec.value))] else [])
    + (if api.Some? && sec.Some? then [SaveKeySetting(NodeText(api.value), NodeText(sec.value))] else [])
  }

  /**
   * _gateway_config_proc on a response code and the parsed payload (None
   * when it does not parse).
   */
  function ConfigDecision(code: int, doc: Option<Json>): (o: ConfigOutcome)
    ensures o.ret == 0 || o.ret == -1
    ensures o.ret == 0 <==>
      code == 200 && doc.Some?
      && FindMember(doc.value, "cloudPlatform").Some? && FindMember(doc.value, "cloudPlatform").value.JString?
      && FindMember(doc.value, "key").Some?
    ensures o.cloud == IoT <==>
      code == 200 && doc.Some? && FindMember(doc.value, "cloudPlatform") == Some(JString("IotConnect"))
    ensures o.calls != [] ==> o.ret == 0
    ensures o.ret == 0 ==> o.calls == KeyCalls(FindMember(doc.value, "key").value)
  {
    if code != 200 then ConfigOutcome(-1, DefaultCloud, [])
    else if doc.None? then ConfigOutcome(-1, DefaultCloud, [])
    else
      var cloud := FindMember(doc.value, "cloudPlatform");
      if cloud.None? || !cloud.value.JString? then ConfigOutcome(-1, DefaultCloud, [])
      else
        var t := if cloud.value.s == "IotConnect" then IoT else DefaultCloud;
        var key := FindMember(doc.value, "key");
        if key.None? then ConfigOutcome(-1, t, [])
        else ConfigOutcome(0, t, KeyCalls(key.value))
  }

  /** A non-200 response is refused whatever its payload. */
  lemma ConfigIgnoresPayloadOnError(code: int, d1: Option<Json>, d2: Option<Json>)
    requires code != 200
    ensures ConfigDecision(code, d1) == ConfigDecision(code, d2) == ConfigOutcome(-1, DefaultCloud, [])
  {
  }

  /** A present "key" object that holds neither key still succeeds, and calls nothing. */
  lemma ConfigEmptyKeyObject(cloud: string)
    ensures ConfigDecision(200, Some(MakeObject([("cloudPlatform", JString(cloud)), ("key", JObject([]))])))
            == ConfigOutcome(0, if cloud == "IotConnect" then IoT else DefaultCloud, [])
  {
    var pairs := [("cloudPlatform", JString(cloud)), ("key", JObject([]))];
    FindInMadeObject(pairs, 0);
    FindInMadeObject(pairs, 1);
  }

  /** The IoT type is set before the key check, so it survives a missing "key". */
  lemma ConfigIoTWithoutKeys()
    ensures ConfigDecision(200, Some(MakeObject([("cloudPlatform", JString("IotConnect"))])))
            == ConfigOutcome(-1, IoT, [])
  {
    FindInMadeObject([("cloudPlatform", JString("IotConnect"))], 0);
  }

  /** konexios_gateway_config_t: the part of it the default build writes. */
  class GatewayConfig {
    var cloud: CloudType

    constructor ()
      ensures cloud == DefaultCloud
    {
      cloud := DefaultCloud;
    }

    /** konexios_gateway_config_init. */
    method Reset()
      modifies this
      ensures cloud == DefaultCloud
    {
      cloud := DefaultCloud;
    }
  }

  /** The key store: the calls set_api_key, set_secret_key and save_key_setting receive, in order. */
  class KeyStore {
    var calls: seq<KeyCall>

    constructor ()
      ensures calls == []
    {
      calls := [];
    }

    method Record(c: KeyCall)
      modifies this
      ensures calls == old(calls) + [c]
    {
      calls := calls + [c];
    }
  }

  /** _gateway_config_proc: resets the config, then follows ConfigDecision. */
  method ConfigProc(config: GatewayConfig, keys: KeyStore, code: int, doc: Option<Json>) returns (ret: int)
    modifies config, keys
    ensures var o := ConfigDecision(code, doc);
      ret == o.ret && config.cloud == o.cloud && keys.calls == old(keys.calls) + o.calls
  {
    config.Reset();
    if code != 200 {
      return -1;
    }
    if doc.None? {
      return -1;
    }
    var cloud := FindMember(doc.value, "cloudPlatform");
    if cloud.None? || !cloud.value.JString? {
      return -1;
    }
    if cloud.value.s == "IotConnect" {
      config.cloud := IoT;
    }
    var key := FindMember(doc.value, "key");
    if key.None? {
      return -1;
    }
    RecordKeys(keys, key.value);
    ret := 0;
  }

  /** The key-store calls of _gateway_config_proc for the "key" object, made in order. */
  method RecordKeys(keys: KeyStore, keyNode: Json)
    modifies keys
    ensures keys.calls == old(keys.calls) + KeyCalls(keyNode)
  {
    var api := FindMember(keyNode, "apiKey");
    if api.Some? {
      keys.Record(SetApiKey(NodeText(api.value)));
    }
    var sec := FindMember(keyNode, "secretKey");
    if sec.Some? {
      keys.Record(SetSecretKey(NodeText(sec.value)));
    }
    if api.Some? && sec.Some? {
      keys.Record(SaveKeySetting(NodeText(api.value), NodeText(sec.value)));
    }
  }
}
