/**
  The per-URL pipeline of cmd/httpxUtilz.go: processURL runs up to three stages
  (base information, passive/CDN information, vulnerability rules) selected by
  the Base, Passive and MayVul flags, and returns the zero Result when a needed
  fetch fails or the passive stage finds no address. The network fetch, the DNS
  and ASN lookups, title and banner extraction, the content-length getters and
  the rule matcher are oracles gathered in `Providers`.
 */
module Pipeline {
  import opened Wrappers
  import opened HttpTypes
  import opened CdnInfo
  import opened Httpx
  import opened Resolvers
  import opened Request

  datatype PassiveResult = PassiveResult(
    cname: seq<string>, ip: seq<string>, cdn: int, cdnByIp: bool, cdnByHeader: seq<string>,
    cdnByCidr: bool, cdnByAsn: bool, cdnByCName: bool, cidr: string, asn: string, org: string, addr: string)

  datatype ResponseResult = ResponseResult(
    url: string, title: string, server: string, via: string, power: string, statusCode: int, alive: int,
    contentLength: int64, contentLengthByAllBody: int64, responseHeader: seq<string>)

  datatype MatchResponseResult = MatchResponseResult(mayVul: map<string, string>)

  datatype Result = Result(baseInfo: ResponseResult, passiveInfo: PassiveResult, regexInfo: MatchResponseResult)

  const ZeroPassive: PassiveResult := PassiveResult([], [], 0, false, [], false, false, false, "", "", "", "")
  const ZeroResponse: ResponseResult := ResponseResult("", "", "", "", "", 0, 0, 0, 0, [])
  const ZeroRegex: MatchResponseResult := MatchResponseResult(map[])
  const ZeroResult: Result := Result(ZeroResponse, ZeroPassive, ZeroRegex)

  /** The fields of ProcessUrlParams that processURL reads. */
  datatype ProcessUrlParams = ProcessUrlParams(
    url: string, proxy: string, useHttps: bool, followRedirects: bool, maxRedirects: int,
    httpMethod: string, randomUserAgent: bool, headers: string, followSameHost: bool, timeout: int64,
    passive: bool, base: bool, mayVul: bool)

  /** What GetAsnInfoByIps reports for a list of addresses. */
  datatype AsnInfo = AsnInfo(cidr: string, asn: string, org: string, addr: string)

  /** What one fetch hands to the network: the URL and the settings of the client built
      for it. The Headers map is not part of it: GetResponseByUrl never sends it. */
  datatype FetchRequest = FetchRequest(url: string, client: ClientSettings)

  /** The oracles: `fetch` is indexed by the ordinal of the fetch within one run, and
      `pick` gives getRandomUserAgent's draw for that fetch. */
  datatype Providers = Providers(
    fetch: (nat, FetchRequest) -> Option<Response>,
    pick: nat -> nat,
    title: Response -> string,
    banner: Response -> (string, string, string),
    contentLength: Response -> int64,
    contentLengthAllBody: Response -> int64,
    dns: string -> DnsAnswer,
    asnmapIps: string -> seq<string>,
    asnInfo: (seq<string>, string) -> AsnInfo,
    parseIp: string -> Option<Ip>,
    checkCdn: Ip -> CdnCheck,
    mayVul: Response -> map<string, string>)

  /** The reference tables, already loaded; the CNAME table is None when it failed to load. */
  datatype Tables = Tables(
    cdnHeaders: seq<string>, cdnCidrs: seq<string>, cdnAsns: seq<string>, cdnCnames: Option<map<string, string>>)

  /** isResultEmpty: the result equals the zero Result, field by field. */
  function IsResultEmpty(r: Result): (empty: bool)
    ensures empty <==>
      && r.baseInfo.url == "" && r.baseInfo.title == "" && r.baseInfo.server == "" && r.baseInfo.via == ""
      && r.baseInfo.power == "" && r.baseInfo.statusCode == 0 && r.baseInfo.alive == 0
      && r.baseInfo.contentLength == 0 && r.baseInfo.contentLengthByAllBody == 0 && r.baseInfo.responseHeader == []
      && r.passiveInfo.cname == [] && r.passiveInfo.ip == [] && r.passiveInfo.cdn == 0
      && !r.passiveInfo.cdnByIp && r.passiveInfo.cdnByHeader == [] && !r.passiveInfo.cdnByCidr
      && !r.passiveInfo.cdnByAsn && !r.passiveInfo.cdnByCName && r.passiveInfo.cidr == ""
      && r.passiveInfo.asn == "" && r.passiveInfo.org == "" && r.passiveInfo.addr == ""
      && r.regexInfo.mayVul == map[]
  {
    r == ZeroResult
  }

  /** The config processURL builds from its parameters, around a given Headers map. */
  function ConfigOf(params: ProcessUrlParams, headers: HeaderTable): (c: RequestClientConfig)
    ensures c.headers == headers && c.proxyUrl == params.proxy && c.useHttps == params.useHttps
    ensures c.followRedirects == params.followRedirects && c.maxRedirects == params.maxRedirects
    ensures c.httpMethod == params.httpMethod && c.randomUserAgent == params.randomUserAgent
    ensures c.followSameHost == params.followSameHost && c.timeout == params.timeout
  {
    RequestClientConfig(
      params.proxy, params.useHttps, params.followRedirects, params.maxRedirects, params.httpMethod,
      params.randomUserAgent, headers, params.followSameHost, params.timeout)
  }

  /** The addresses of the passive stage: the DNS A records, then asnmap's. */
  function PassiveIps(url: string, p: Providers): (ips: seq<string>)
    ensures |ips| == |GetCnameIPsByDomain(url, p.dns).a| + |p.asnmapIps(url)|
    ensures ips[..|GetCnameIPsByDomain(url, p.dns).a|] == GetCnameIPsByDomain(url, p.dns).a
    ensures ips[|GetCnameIPsByDomain(url, p.dns).a|..] == p.asnmapIps(url)
  {
    GetCnameIPsByDomain(url, p.dns).a + p.asnmapIps(url)
  }

  /** The number of fetches of a run that reaches the end: one for Base, which the later
      stages reuse; otherwise one each for Passive and MayVul. */
  function FetchCount(params: ProcessUrlParams): (n: nat)
    ensures n <= 2
    ensures params.base ==> n == 1
    ensures !params.base ==> n == (if params.passive then 1 else 0) + (if params.mayVul then 1 else 0)
  {
    if params.base then 1 else (if params.passive then 1 else 0) + (if params.mayVul then 1 else 0)
  }

  /** A run reaches the end: every fetch succeeded, and the passive stage (when on) found an address. */
  predicate Completes(params: ProcessUrlParams, p: Providers, requests: seq<FetchRequest>)
  {
    (forall k :: 0 <= k < |requests| ==> p.fetch(k, requests[k]).Some?) && !(params.passive && PassiveIps(params.url, p) == [])
  }

  /** Every fetch logged so far went to `url` with `client` and got a response. */
  ghost predicate LogOk(p: Providers, url: string, client: ClientSettings, requests: seq<FetchRequest>)
  {
    forall k :: 0 <= k < |requests| ==> requests[k] == FetchRequest(url, client) && p.fetch(k, requests[k]).Some?
  }

  /** GetResponseByUrl: every fetch builds a new client from the shared config. */
  method Fetch(config: RequestClientConfig, url: string, ordinal: nat, p: Providers)
    returns (resp: Option<Response>, req: FetchRequest)
    modifies config.headers
    ensures req == FetchRequest(url, Settings(WithDefaults(config)))
    ensures resp == p.fetch(ordinal, req)
    ensures UserAgentWrite(old(config.headers.entries), config.headers.entries, config.randomUserAgent, p.pick(ordinal))
  {
    var client := NewRequestClient(config, p.pick(ordinal));
    req := FetchRequest(url, Settings(client));
    resp := p.fetch(ordinal, req);
  }

  /** One more fetch, appended to the log: it keeps the log good when it succeeds. */
  method FetchNext(config: RequestClientConfig, url: string, ordinal: nat, p: Providers, ghost requests0: seq<FetchRequest>)
    returns (resp: Option<Response>, ghost requests: seq<FetchRequest>)
    requires ordinal == |requests0| && LogOk(p, url, Settings(WithDefaults(config)), requests0)
    modifies config.headers
    ensures requests == requests0 + [FetchRequest(url, Settings(WithDefaults(config)))]
    ensures resp == p.fetch(ordinal, requests[ordinal])
    ensures resp.Some? ==> LogOk(p, url, Settings(WithDefaults(config)), requests)
    ensures resp.None? ==> !(forall k :: 0 <= k < |requests| ==> p.fetch(k, requests[k]).Some?)
    ensures UserAgentWrite(old(config.headers.entries), config.headers.entries, config.randomUserAgent, p.pick(ordinal))
  {
    var req;
    resp, req := Fetch(config, url, ordinal, p);
    requests := requests0 + [req];
    assert requests[ordinal] == req;
    if resp.Some? {
      forall k | 0 <= k < |requests|
        ensures requests[k] == FetchRequest(url, Settings(WithDefaults(config))) && p.fetch(k, requests[k]).Some?
      {
        if k < ordinal { assert requests[k] == requests0[k]; }
      }
    }
  }

  /** The base record of a run whose Base fetch returned `resp`. */
  ghost predicate BaseInfoFrom(url: string, p: Providers, resp: Response, info: ResponseResult)
  {
    && info.url == url && info.title == p.title(resp) && (info.server, info.via, info.power) == p.banner(resp)
    && info.statusCode == resp.status && info.alive == GetAliveByResponse(resp)
    && info.contentLength == p.contentLength(resp) && info.contentLengthByAllBody == p.contentLengthAllBody(resp)
    && IsHeaderListing(resp.headers, info.responseHeader)
  }

  /** The passive record of a run whose passive stage found addresses and worked on `resp`:
      the DNS answer and the addresses as looked up, the CDN signals as the checks define
      them over the ASN lookup's CIDR and ASN, and the combiner's verdict, which is the
      CNAME check's. */
  predicate PassiveInfoFrom(params: ProcessUrlParams, p: Providers, t: Tables, resp: Response, info: PassiveResult)
  {
    var ips := PassiveIps(params.url, p);
    var cname := GetCnameIPsByDomain(params.url, p.dns).cname;
    var asn := p.asnInfo(ips, params.proxy);
    && info.cname == cname && info.ip == ips
    && info.cdnByIp == IpEvidence(ips, p.parseIp, p.checkCdn)
    && info.cdnByHeader == HeaderEvidence(resp.headers, t.cdnHeaders)
    && info.cdnByCidr == AnyExactMatch([asn.cidr], t.cdnCidrs)
    && info.cdnByAsn == AnyExactMatch([asn.asn], t.cdnAsns)
    && info.cdnByCName == CnameHit(cname, t.cdnCnames)
    && info.cdn == (if info.cdnByCName then 1 else 0)
    && info.cidr == asn.cidr && info.asn == asn.asn && info.org == asn.org && info.addr == asn.addr
  }

  /** The field getters of processURL's base stage (cmd/httpxUtilz.go:189-209). */
  method BaseStage(url: string, p: Providers, resp: Response) returns (info: ResponseResult)
    ensures BaseInfoFrom(url, p, resp, info)
  {
    var title := p.title(resp);
    var server, via, power := p.banner(resp).0, p.banner(resp).1, p.banner(resp).2;
    var statusCode := GetStatusByResponse(resp);
    var alive := GetAliveByResponse(resp);
    var contentLength := p.contentLength(resp);
    var contentLengthByAllBody := p.contentLengthAllBody(resp);
    var responseHeader := GetServerAllHeaderByResponse(resp);
    info := ResponseResult(
      url, title, server, via, power, statusCode, alive, contentLength, contentLengthByAllBody, responseHeader);
  }

  /** The combiner call and the passive record of processURL (cmd/httpxUtilz.go:239-259). */
  method PassiveStage(
    params: ProcessUrlParams, p: Providers, t: Tables, resp: Response,
    answer: DnsAnswer, ips: seq<string>, asnInfo: AsnInfo)
    returns (info: PassiveResult)
    requires answer == GetCnameIPsByDomain(params.url, p.dns)
    requires ips == PassiveIps(params.url, p) && asnInfo == p.asnInfo(ips, params.proxy)
    ensures PassiveInfoFrom(params, p, t, resp, info)
  {
    var cdn, cdnbyip, cdnbyheader, cdnbycidr, cdnbyasn, cdnbycname := GetCdnInfoByAll(
      resp, ips, t.cdnHeaders, [asnInfo.cidr], t.cdnCidrs, [asnInfo.asn], t.cdnAsns,
      answer.cname, t.cdnCnames, p.parseIp, p.checkCdn);
    info := PassiveResult(
      answer.cname, ips, cdn, cdnbyip, cdnbyheader, cdnbycidr, cdnbyasn, cdnbycname,
      asnInfo.cidr, asnInfo.asn, asnInfo.org, asnInfo.addr);
  }

  /** The passive stage of processURL (cmd/httpxUtilz.go:211-260), after the base stage
      has logged its fetch, if any: it stops the run when no address is found or its own
      fetch fails, and otherwise hands on the response it worked on. */
  method PassivePhase(
    params: ProcessUrlParams, p: Providers, t: Tables, config: RequestClientConfig,
    resp0: Option<Response>, ghost requests0: seq<FetchRequest>)
    returns (stop: bool, passiveInfo: PassiveResult, resp: Option<Response>, ghost requests: seq<FetchRequest>)
    requires |requests0| == (if params.base then 1 else 0)
    requires LogOk(p, params.url, Settings(WithDefaults(config)), requests0)
    requires params.base ==> resp0 == p.fetch(0, requests0[0])
    modifies config.headers
    ensures forall k :: 0 <= k < |requests| ==> requests[k] == FetchRequest(params.url, Settings(WithDefaults(config)))
    ensures |requests| <= (if params.base || params.passive then 1 else 0) && |requests| <= FetchCount(params)
    ensures |requests| >= |requests0| && requests[..|requests0|] == requests0
    ensures params.passive && PassiveIps(params.url, p) == [] ==>
      requests == requests0 && |requests| == (if params.base then 1 else 0)
    ensures |requests| == |requests0| ==> config.headers.entries == old(config.headers.entries)
    ensures |requests| > |requests0| ==>
      UserAgentWrite(old(config.headers.entries), config.headers.entries, config.randomUserAgent, p.pick(|requests0|))
    ensures stop ==> !Completes(params, p, requests)
    ensures !stop ==> && LogOk(p, params.url, Settings(WithDefaults(config)), requests)
                      && !(params.passive && PassiveIps(params.url, p) == [])
                      && |requests| == (if params.base || params.passive then 1 else 0)
                      && (|requests| == 1 ==> resp == p.fetch(0, requests[0]))
    ensures !stop && !params.passive ==> passiveInfo == ZeroPassive
    ensures !stop && params.passive ==> PassiveInfoFrom(params, p, t, p.fetch(0, requests[0]).value, passiveInfo)
  {
    requests, resp := requests0, resp0;
    stop, passiveInfo := false, ZeroPassive;
    if params.passive {
      var answer := GetCnameIPsByDomain(params.url, p.dns);
      var resolveIps := p.asnmapIps(params.url);
      var ips := answer.a + resolveIps;
      assert ips == PassiveIps(params.url, p);
      if |ips| == 0 {
        stop := true;
        return;
      }
      var asnInfo := p.asnInfo(ips, params.proxy);
      if !params.base {
        resp, requests := FetchNext(config, params.url, 0, p, requests);
        if resp.None? {
          stop := true;
          return;
        }
      }
      passiveInfo := PassiveStage(params, p, t, resp.value, answer, ips, asnInfo);
    }
  }

  /** The rule stage of processURL (cmd/httpxUtilz.go:262-275): without Base it fetches
      once more, and the rules run on the latest response. */
  method RulePhase(
    params: ProcessUrlParams, p: Providers, config: RequestClientConfig,
    resp0: Option<Response>, ghost requests0: seq<FetchRequest>)
    returns (stop: bool, regexInfo: MatchResponseResult, ghost requests: seq<FetchRequest>)
    requires |requests0| == (if params.base || params.passive then 1 else 0)
    requires LogOk(p, params.url, Settings(WithDefaults(config)), requests0)
    requires |requests0| == 1 ==> resp0 == p.fetch(0, requests0[0])
    modifies config.headers
    ensures forall k :: 0 <= k < |requests| ==> requests[k] == FetchRequest(params.url, Settings(WithDefaults(config)))
    ensures |requests| >= |requests0| && requests[..|requests0|] == requests0
    ensures |requests| <= FetchCount(params)
    ensures forall k :: 0 <= k < |requests| - 1 ==> p.fetch(k, requests[k]).Some?
    ensures |requests| == |requests0| ==> config.headers.entries == old(config.headers.entries)
    ensures |requests| > |requests0| ==>
      UserAgentWrite(old(config.headers.entries), config.headers.entries, config.randomUserAgent, p.pick(|requests0|))
    ensures stop ==> !(forall k :: 0 <= k < |requests| ==> p.fetch(k, requests[k]).Some?)
    ensures !stop ==> LogOk(p, params.url, Settings(WithDefaults(config)), requests) && |requests| == FetchCount(params)
    ensures !stop && !params.mayVul ==> regexInfo == ZeroRegex
    ensures !stop && params.mayVul ==> regexInfo.mayVul == p.mayVul(p.fetch(|requests| - 1, requests[|requests| - 1]).value)
  {
    requests := requests0;
    var resp := resp0;
    stop, regexInfo := false, ZeroRegex;
    if params.mayVul {
      if !params.base {
        var fetches := if params.passive then 1 else 0;
        resp, requests := FetchNext(config, params.url, fetches, p, requests);
        if resp.None? {
          stop := true;
          return;
        }
      }
      regexInfo := MatchResponseResult(p.mayVul(resp.value));
    }
  }

  /** processURL. Every fetch builds its client from the same config, so all fetches
      use the same defaulted `client`; `requests` records them, in order. */
  method ProcessURL(params: ProcessUrlParams, p: Providers, t: Tables)
    returns (result: Result, ghost client: RequestClientConfig, ghost requests: seq<FetchRequest>)
    ensures client == WithDefaults(ConfigOf(params, client.headers))
    ensures forall k :: 0 <= k < |requests| ==> requests[k] == FetchRequest(params.url, Settings(client))
    ensures |requests| <= FetchCount(params)
    ensures forall k :: 0 <= k < |requests| - 1 ==> p.fetch(k, requests[k]).Some?
    ensures params.passive && PassiveIps(params.url, p) == [] ==> |requests| == (if params.base then 1 else 0)
    ensures !Completes(params, p, requests) ==> result == ZeroResult
    ensures Completes(params, p, requests) ==> |requests| == FetchCount(params) && result.baseInfo.url == params.url
    ensures Completes(params, p, requests) && params.url != "" ==> !IsResultEmpty(result)
    // the base stage
    ensures Completes(params, p, requests) && !params.base ==> result.baseInfo == ZeroResponse.(url := params.url)
    ensures Completes(params, p, requests) && params.base ==>
      BaseInfoFrom(params.url, p, p.fetch(0, requests[0]).value, result.baseInfo)
    // the passive stage, on the first response
    ensures Completes(params, p, requests) && !params.passive ==> result.passiveInfo == ZeroPassive
    ensures Completes(params, p, requests) && params.passive ==>
      PassiveInfoFrom(params, p, t, p.fetch(0, requests[0]).value, result.passiveInfo)
    // the rule stage, on the last response
    ensures Completes(params, p, requests) && !params.mayVul ==> result.regexInfo == ZeroRegex
    ensures Completes(params, p, requests) && params.mayVul ==>
      result.regexInfo.mayVul == p.mayVul(p.fetch(|requests| - 1, requests[|requests| - 1]).value)
  {
    var headers := new HeaderTable(map[UserAgentKey := params.headers]);
    var config := ConfigOf(params, headers);
    client := WithDefaults(config);
    requests := [];
    var resp: Option<Response> := None;

    var baseInfo := ZeroResponse.(url := params.url);
    if params.base {
      resp, requests := FetchNext(config, params.url, 0, p, requests);
      if resp.None? {
        assert |requests| == 1 == FetchCount(params);
        return ZeroResult, client, requests;
      }
      baseInfo := BaseStage(params.url, p, resp.value);
    }
    ghost var baseRequests := requests;

    var stop, passiveInfos;
    stop, passiveInfos, resp, requests := PassivePhase(params, p, t, config, resp, requests);
    if stop {
      return ZeroResult, client, requests;
    }
    ghost var passiveRequests := requests;

    var matchResponseResult;
    stop, matchResponseResult, requests := RulePhase(params, p, config, resp, requests);
    if stop {
      assert !Completes(params, p, requests);
      return ZeroResult, client, requests;
    }
    assert |passiveRequests| == 1 ==> requests[0] == passiveRequests[0];
    assert params.base ==> requests[0] == baseRequests[0];
    result := Result(baseInfo, passiveInfos, matchResponseResult);
  }

  /** A caller's view of processURL: a run makes at most FetchCount fetches, so when each
      of those ordinals succeeds whatever the request, and the passive stage (when on)
      finds an address, the run reaches the end and, for a non-empty URL, its result
      is not the zero Result. */
  method ProcessURLWhenFetchesSucceed(params: ProcessUrlParams, p: Providers, t: Tables) returns (result: Result)
    requires forall k: nat, req: FetchRequest :: k < FetchCount(params) ==> p.fetch(k, req).Some?
    requires !(params.passive && PassiveIps(params.url, p) == [])
    ensures result.baseInfo.url == params.url
    ensures params.url != "" ==> !IsResultEmpty(result)
    ensures !params.mayVul ==> result.regexInfo == ZeroRegex
    ensures !params.passive ==> result.passiveInfo == ZeroPassive
  {
    ghost var client, requests;
    result, client, requests := ProcessURL(params, p, t);
  }
}
