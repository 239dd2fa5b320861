/**
  Request-client configuration (utilz/request.go): the defaults NewRequestClient
  fills in, and the redirect decision its client applies. The config is passed
  by value, so its fields change only on the client's copy; its Headers map is
  shared with the caller, so the User-Agent it may write is seen by the caller.
  Building the transport, the proxy and the TLS settings is not modelled.
 */
module Request {

  /** Go's int64, the representation of time.Duration (nanoseconds). */
  newtype int64 = x: int | -0x8000_0000_0000_0000 <= x < 0x8000_0000_0000_0000

  const TwoTo64: int := 0x1_0000_0000_0000_0000
  const Second: int64 := 1_000_000_000
  const DefaultTimeout: int64 := 30 * Second
  const DefaultMaxRedirects: int := 10
  const DefaultMethod: string := "GET"
  const UserAgentKey: string := "User-Agent"

  /** The fixed User-Agent strings of getRandomUserAgent. */
  const UserAgents: seq<string> := [
    "Mozilla/5.0 (Windows NT 10.0; Win64; x64) AppleWebKit/537.36 (KHTML, like Gecko) Chrome/89.0.4389.82 Safari/537.36",
    "Mozilla/5.0 (Windows NT 10.0; Win64; x64; rv:86.0) Gecko/20100101 Firefox/86.0",
    "Mozilla/5.0 (Macintosh; Intel Mac OS X 10_15_7) AppleWebKit/537.36 (KHTML, like Gecko) Chrome/89.0.4389.82 Safari/537.36",
    "Mozilla/5.0 (Macintosh; Intel Mac OS X 10_15_7) AppleWebKit/537.36 (KHTML, like Gecko) Firefox/86.0",
    "Mozilla/5.0 (Windows NT 10.0; Win64; x64) AppleWebKit/537.36 (KHTML, like Gecko) Edge/89.0.774.54 Safari/537.36"
  ]

  /** Two's-complement wrap-around of an integer into int64. */
  function WrapInt64(x: int): (r: int64)
    ensures (r as int - x) % TwoTo64 == 0
    ensures -0x8000_0000_0000_0000 <= x < 0x8000_0000_0000_0000 ==> r as int == x
  {
    var m := x % TwoTo64;
    if m >= 0x8000_0000_0000_0000 then (m - TwoTo64) as int64 else m as int64
  }

  /** Go's int64 multiplication, which wraps on overflow. */
  function MulInt64(a: int64, b: int64): (r: int64)
    ensures (r as int - a as int * b as int) % TwoTo64 == 0
  {
    WrapInt64(a as int * b as int)
  }

  /** A Timeout small enough that multiplying it by one second does not overflow is
      scaled exactly; a larger one wraps. */
  lemma TimeoutScaledExactly(t: int64)
    requires -9_223_372_036 <= t as int <= 9_223_372_036
    ensures MulInt64(t, Second) as int == t as int * 1_000_000_000
  {
    assert -0x8000_0000_0000_0000 <= t as int * 1_000_000_000 < 0x8000_0000_0000_0000;
  }

  /** One more second's worth overflows: the product wraps to a negative duration. */
  lemma TimeoutWraps()
    ensures MulInt64(9_223_372_037, Second) < 0
  {
    assert 9_223_372_037 * 1_000_000_000 == 9_223_372_037_000_000_000;
  }

  /** The Headers map of a config; Go maps are references, so this is a class. */
  class HeaderTable {
    var entries: map<string, string>

    constructor(entries: map<string, string>)
      ensures this.entries == entries
    {
      this.entries := entries;
    }

    /** A Go map read: the zero value "" for a missing key. */
    function Lookup(key: string): (value: string)
      reads this
      ensures key in entries ==> value == entries[key]
      ensures key !in entries ==> value == ""
    {
      if key in entries then entries[key] else ""
    }

    method Set(key: string, value: string)
      modifies this
      ensures entries == old(entries)[key := value]
    {
      entries := entries[key := value];
    }
  }

  datatype RequestClientConfig = RequestClientConfig(
    proxyUrl: string,
    useHttps: bool,
    followRedirects: bool,
    maxRedirects: int,
    httpMethod: string,
    randomUserAgent: bool,
    headers: HeaderTable,
    followSameHost: bool,
    timeout: int64)

  /** What a client is built from, apart from the Headers map: GetResponseByUrl never
      puts that map on a request, so a fetch depends on these values only. */
  datatype ClientSettings = ClientSettings(
    proxyUrl: string,
    useHttps: bool,
    followRedirects: bool,
    maxRedirects: int,
    httpMethod: string,
    randomUserAgent: bool,
    followSameHost: bool,
    timeout: int64)

  /** The settings of a config, leaving out its Headers map. */
  function Settings(c: RequestClientConfig): (s: ClientSettings)
  {
    ClientSettings(c.proxyUrl, c.useHttps, c.followRedirects, c.maxRedirects, c.httpMethod,
      c.randomUserAgent, c.followSameHost, c.timeout)
  }

  /** getRandomUserAgent, with the random draw `pick` as a parameter. */
  function GetRandomUserAgent(pick: nat): (ua: string)
    ensures ua in UserAgents
    ensures ua != ""
  {
    UserAgents[pick % |UserAgents|]
  }

  /** The config as NewRequestClient leaves its by-value copy: the transport fields and
      the flags are kept, a zero Timeout becomes 30 seconds and any other is scaled by one
      second, MaxRedirects becomes 10 only when redirects are followed and it was 0, an
      empty Method becomes "GET", and FollowSameHost is cleared only when it was set and
      MaxRedirects is still 0. The Headers map is the same map: the User-Agent write is a
      side effect on it, made by NewRequestClient. */
  function WithDefaults(c: RequestClientConfig): (d: RequestClientConfig)
    ensures d.headers == c.headers
    ensures d.proxyUrl == c.proxyUrl && d.useHttps == c.useHttps
    ensures d.followRedirects == c.followRedirects && d.randomUserAgent == c.randomUserAgent
    ensures c.timeout == 0 ==> d.timeout as int == 30_000_000_000
    ensures c.timeout != 0 ==> d.timeout == MulInt64(c.timeout, Second)
    ensures c.followRedirects && c.maxRedirects == 0 ==> d.maxRedirects == 10
    ensures !(c.followRedirects && c.maxRedirects == 0) ==> d.maxRedirects == c.maxRedirects
    ensures c.httpMethod == "" ==> d.httpMethod == DefaultMethod
    ensures c.httpMethod != "" ==> d.httpMethod == c.httpMethod
    ensures d.followSameHost != c.followSameHost <==> c.followSameHost && !c.followRedirects && c.maxRedirects == 0
    ensures d.followRedirects ==> d.maxRedirects != 0
  {
    var timeout := if c.timeout == 0 then DefaultTimeout else MulInt64(c.timeout, Second);
    var maxRedirects := if c.followRedirects && c.maxRedirects == 0 then DefaultMaxRedirects else c.maxRedirects;
    var httpMethod := if c.httpMethod == "" then DefaultMethod else c.httpMethod;
    var followSameHost := if c.followSameHost && maxRedirects == 0 then false else c.followSameHost;
    c.(timeout := timeout, maxRedirects := maxRedirects, httpMethod := httpMethod, followSameHost := followSameHost)
  }

  /** The Headers map before and after one client is built: a random User-Agent is
      written exactly when RandomUserAgent is set and the map has none (a missing key
      reads as ""); otherwise the map is unchanged. */
  predicate UserAgentWrite(before: map<string, string>, after: map<string, string>, randomUserAgent: bool, pick: nat)
  {
    if randomUserAgent && (UserAgentKey !in before || before[UserAgentKey] == "") then
      after == before[UserAgentKey := GetRandomUserAgent(pick)]
    else
      after == before
  }

  /** NewRequestClient: returns the config its client closes over, and may write a
      random User-Agent into the caller's Headers map. */
  method NewRequestClient(config: RequestClientConfig, pick: nat) returns (effective: RequestClientConfig)
    modifies config.headers
    ensures effective == WithDefaults(config)
    ensures UserAgentWrite(old(config.headers.entries), config.headers.entries, config.randomUserAgent, pick)
    ensures config.randomUserAgent ==> config.headers.Lookup(UserAgentKey) != ""
  {
    var c := config;
    if c.timeout == 0 {
      c := c.(timeout := DefaultTimeout);
    } else {
      c := c.(timeout := MulInt64(c.timeout, Second));
    }
    if c.followRedirects && c.maxRedirects == 0 {
      c := c.(maxRedirects := DefaultMaxRedirects);
    }
    if c.httpMethod == "" {
      c := c.(httpMethod := DefaultMethod);
    }
    if c.randomUserAgent && |c.headers.Lookup(UserAgentKey)| == 0 {
      c.headers.Set(UserAgentKey, GetRandomUserAgent(pick));
    }
    if c.followSameHost && c.maxRedirects == 0 {
      c := c.(followSameHost := false);
    }
    effective := c;
  }

  /** Every fetch builds a new client from the same config. Once one client has set a
      random User-Agent, later clients find it set and leave the shared map alone,
      while each client gets the same defaulted copy. */
  method BuildClientTwice(config: RequestClientConfig, pick1: nat, pick2: nat)
    returns (first: RequestClientConfig, second: RequestClientConfig)
    modifies config.headers
    ensures first == second == WithDefaults(config)
    ensures UserAgentWrite(old(config.headers.entries), config.headers.entries, config.randomUserAgent, pick1)
  {
    first := NewRequestClient(config, pick1);
    second := NewRequestClient(config, pick2);
  }

  datatype RedirectDecision = Follow | UseLastResponse

  /** The CheckRedirect closure over the defaulted config: `reqHost` is the host of the
      redirect target and `via` the hosts of the requests made so far, oldest first. */
  function CheckRedirect(config: RequestClientConfig, reqHost: string, via: seq<string>): (d: RedirectDecision)
    ensures !config.followRedirects ==> d == UseLastResponse
    ensures !config.followSameHost && |via| > 0 && reqHost != via[|via| - 1] ==> d == UseLastResponse
    ensures d == Follow ==> |via| < config.maxRedirects
    ensures d == Follow <==>
      config.followRedirects && |via| < config.maxRedirects &&
      (config.followSameHost || |via| == 0 || reqHost == via[|via| - 1])
  {
    if !config.followRedirects then UseLastResponse
    else if !config.followSameHost && |via| > 0 && reqHost != via[|via| - 1] then UseLastResponse
    else if |via| >= config.maxRedirects then UseLastResponse
    else Follow
  }

  /** `hosts[0]` is the first request and each later host a redirect the client followed. */
  predicate FollowedChain(config: RequestClientConfig, hosts: seq<string>)
  {
    forall k :: 1 <= k < |hosts| ==> CheckRedirect(config, hosts[k], hosts[..k]) == Follow
  }

  /** A redirect is followed only while fewer than MaxRedirects requests were made, so
      a chain of followed redirects holds at most MaxRedirects - 1 redirects. */
  lemma ChainBounded(config: RequestClientConfig, hosts: seq<string>)
    requires FollowedChain(config, hosts) && |hosts| >= 2
    ensures |hosts| - 1 <= config.maxRedirects - 1
  {
    var k := |hosts| - 1;
    assert CheckRedirect(config, hosts[k], hosts[..k]) == Follow;
  }

  /** With FollowSameHost off, every followed redirect stays on the first host. */
  lemma {:induction false} ChainSameHost(config: RequestClientConfig, hosts: seq<string>)
    requires FollowedChain(config, hosts) && !config.followSameHost
    ensures forall k :: 0 <= k < |hosts| ==> hosts[k] == hosts[0]
  {
    if |hosts| >= 2 {
      var init := hosts[..|hosts| - 1];
      var k := |hosts| - 1;
      forall j | 1 <= j < |init| ensures CheckRedirect(config, init[j], init[..j]) == Follow {
        assert init[..j] == hosts[..j];
        assert CheckRedirect(config, hosts[j], hosts[..j]) == Follow;
      }
      ChainSameHost(config, init);
      assert CheckRedirect(config, hosts[k], hosts[..k]) == Follow;
      assert hosts[..k][k - 1] == hosts[k - 1] == init[k - 1];
    }
  }
}
