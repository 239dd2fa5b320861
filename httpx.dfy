/**
  Fields derived from one HTTP response, and the CDN combiner (utilz/httpx.go).
  The combiner runs all five evidence checks and, as the source is written,
  keeps the last `cdn` it is given: the CNAME check's.
 */
module Httpx {
  import opened Wrappers
  import opened Strings
  import opened HttpTypes
  import opened CdnInfo

  const StatusNotFound: int := 404
  const StatusBadGateway: int := 502

  /** GetAliveByResponse: 0 for 404 and 502, 1 for every other status. */
  function GetAliveByResponse(resp: Response): (alive: int)
    ensures alive == 0 || alive == 1
    ensures alive == 0 <==> resp.status == StatusNotFound || resp.status == StatusBadGateway
  {
    if resp.status == StatusNotFound || resp.status == StatusBadGateway then 0 else 1
  }

  /** GetStatusByResponse passes the status code through. */
  function GetStatusByResponse(resp: Response): (status: int)
    ensures status == resp.status
  {
    resp.status
  }

  /** The banner text: each non-empty of Server and Via followed by a comma, then X-Powered-By. */
  function Banner(server: string, via: string, power: string): (banner: string)
  {
    Field(server) + Field(via) + power
  }

  /** GetServerByResponse builds the banner by appending to it. */
  method GetServerByResponse(resp: Response) returns (banner: string)
    ensures banner == Banner(Get(resp.headers, "Server"), Get(resp.headers, "Via"), Get(resp.headers, "X-Powered-By"))
    ensures banner == "" <==>
      Get(resp.headers, "Server") == "" && Get(resp.headers, "Via") == "" && Get(resp.headers, "X-Powered-By") == ""
  {
    banner := "";
    var server := Get(resp.headers, "Server");
    if |server| > 0 {
      banner := server + ",";
    }
    var via := Get(resp.headers, "Via");
    if |via| > 0 {
      banner := banner + via + ",";
    }
    var power := Get(resp.headers, "X-Powered-By");
    if |power| > 0 {
      banner := banner + power;
    }
  }

  /** A banner field followed by its comma, or nothing when the field is empty. */
  function Field(v: string): (field: string)
  {
    if |v| > 0 then v + "," else ""
  }

  /** Splitting on "," after an optional comma-free field yields that field first. */
  lemma SplitAfterField(v: string, rest: string)
    requires ',' !in v
    ensures Split(Field(v) + rest, ",") == (if v != "" then [v] else []) + Split(rest, ",")
  {
    var comma: string := [','];
    assert "," == comma;
    if v != "" {
      SplitCharConcat(v, ',', rest);
      assert Field(v) + rest == v + [','] + rest;
    } else {
      assert Field(v) + rest == rest;
    }
  }

  /** When the three values hold no comma, splitting the banner on "," gives back the
      non-empty Server and Via values, followed by X-Powered-By (possibly empty). */
  lemma BannerSplit(server: string, via: string, power: string)
    requires ',' !in server && ',' !in via && ',' !in power
    ensures Split(Banner(server, via, power), ",") ==
      (if server != "" then [server] else []) + (if via != "" then [via] else []) + [power]
  {
    SplitCharNone(power, ',');
    assert [','] == ",";
    SplitAfterField(via, power);
    SplitAfterField(server, Field(via) + power);
    assert Banner(server, via, power) == Field(server) + (Field(via) + power);
  }

  /** The "key: value" lines of one header, in the order of its values. */
  function ValueLines(key: string, values: seq<string>): (lines: seq<string>)
  {
    seq(|values|, i requires 0 <= i < |values| => HeaderLine(key, values[i]))
  }

  /** The lines of the headers named by `keys`, key after key. */
  function Flatten(h: Header, keys: seq<string>): (lines: seq<string>)
    requires forall k :: k in keys ==> k in h
  {
    if keys == [] then []
    else Flatten(h, keys[..|keys| - 1]) + ValueLines(keys[|keys| - 1], h[keys[|keys| - 1]])
  }

  /** `keys` lists every header name once: one order in which Go's map iteration may visit them. */
  ghost predicate IsKeyOrder(h: Header, keys: seq<string>)
  {
    && (forall i, j :: 0 <= i < j < |keys| ==> keys[i] != keys[j])
    && (forall k :: k in keys <==> k in h)
  }

  /** `lines` is the flattening of all headers for some iteration order of the map. */
  ghost predicate IsHeaderListing(h: Header, lines: seq<string>)
  {
    exists keys :: IsKeyOrder(h, keys) && lines == Flatten(h, keys)
  }

  /** Some header name of a non-empty map. */
  ghost function PickKey(h: Header): (key: string)
    requires h != map[]
  {
    var k :| k in h; k
  }

  /** The number of header values, over all header names. */
  ghost function TotalValues(h: Header): (n: nat)
    decreases h.Keys
  {
    if h == map[] then 0
    else
      var k := PickKey(h);
      assert (h - {k}).Keys < h.Keys;
      |h[k]| + TotalValues(h - {k})
  }

  /** The count does not depend on which header name is taken first. */
  lemma {:induction false} TotalValuesRemove(h: Header, k: string)
    requires k in h
    ensures TotalValues(h) == |h[k]| + TotalValues(h - {k})
    decreases h.Keys
  {
    var k' := PickKey(h);
    if k' != k {
      assert (h - {k'}).Keys < h.Keys && (h - {k}).Keys < h.Keys;
      TotalValuesRemove(h - {k'}, k);
      TotalValuesRemove(h - {k}, k');
      assert h - {k'} - {k} == h - {k} - {k'};
    }
  }

  /** The headers named by `keys`, as a map. */
  function Restrict(h: Header, keys: seq<string>): (sub: Header)
  {
    map k | k in keys && k in h :: h[k]
  }

  /** Covering one more, new, header name adds exactly that header to the restriction. */
  lemma RestrictSnoc(h: Header, init: seq<string>, last: string)
    requires last in h && last !in init
    ensures last in Restrict(h, init + [last]) && Restrict(h, init + [last])[last] == h[last]
    ensures Restrict(h, init + [last]) - {last} == Restrict(h, init)
  {
    var r := Restrict(h, init + [last]);
    assert last in init + [last];
    forall k ensures k in r - {last} <==> k in Restrict(h, init) {
      assert k in init + [last] <==> k in init || k == last;
    }
  }

  /** A flattening has one line per value of the headers it covers. */
  lemma {:induction false} FlattenLength(h: Header, keys: seq<string>)
    requires forall k :: k in keys ==> k in h
    requires forall i, j :: 0 <= i < j < |keys| ==> keys[i] != keys[j]
    ensures |Flatten(h, keys)| == TotalValues(Restrict(h, keys))
  {
    if keys == [] {
      assert Restrict(h, keys) == map[];
    } else {
      var init := keys[..|keys| - 1];
      var last := keys[|keys| - 1];
      assert keys == init + [last];
      assert last !in init;
      FlattenLength(h, init);
      assert |Flatten(h, keys)| == |Flatten(h, init)| + |h[last]|;
      RestrictSnoc(h, init, last);
      TotalValuesRemove(Restrict(h, keys), last);
    }
  }

  /** Each value of a covered header appears as its "key: value" line. */
  lemma {:induction false} FlattenHasPair(h: Header, keys: seq<string>, k: string, i: nat)
    requires forall k :: k in keys ==> k in h
    requires k in keys && i < |h[k]|
    ensures HeaderLine(k, h[k][i]) in Flatten(h, keys)
  {
    var init := keys[..|keys| - 1];
    var last := keys[|keys| - 1];
    if k == last {
      assert ValueLines(last, h[last])[i] == HeaderLine(k, h[k][i]);
    } else {
      assert k in init;
      FlattenHasPair(h, init, k, i);
    }
  }

  /** `block` occurs in `lines` starting at `start`. */
  predicate BlockAt(lines: seq<string>, start: int, block: seq<string>)
  {
    0 <= start && start + |block| <= |lines| && lines[start..start + |block|] == block
  }

  /** The lines of one covered header form a single block of the flattening. */
  lemma {:induction false} FlattenBlock(h: Header, keys: seq<string>, k: string) returns (start: int)
    requires forall k :: k in keys ==> k in h
    requires k in keys
    ensures BlockAt(Flatten(h, keys), start, ValueLines(k, h[k]))
  {
    var init := keys[..|keys| - 1];
    var last := keys[|keys| - 1];
    var f := Flatten(h, init);
    var block := ValueLines(k, h[k]);
    assert Flatten(h, keys) == f + ValueLines(last, h[last]);
    if k == last {
      start := |f|;
      assert Flatten(h, keys)[start..start + |block|] == block;
    } else {
      assert k in init;
      start := FlattenBlock(h, init, k);
      assert Flatten(h, keys)[start..start + |block|] == f[start..start + |block|];
    }
  }

  /** Every header listing has one line per header value, holds the line of every
      (key, value) pair, and lists the values of each header together, in their order. */
  lemma HeaderListingSpec(h: Header, lines: seq<string>)
    requires IsHeaderListing(h, lines)
    ensures |lines| == TotalValues(h)
    ensures forall k, i :: k in h && 0 <= i < |h[k]| ==> HeaderLine(k, h[k][i]) in lines
    ensures forall k :: k in h ==> exists start :: BlockAt(lines, start, ValueLines(k, h[k]))
  {
    var keys :| IsKeyOrder(h, keys) && lines == Flatten(h, keys);
    FlattenLength(h, keys);
    assert Restrict(h, keys) == h;
    forall k, i | k in h && 0 <= i < |h[k]| ensures HeaderLine(k, h[k][i]) in lines {
      FlattenHasPair(h, keys, k, i);
    }
    forall k | k in h ensures exists start :: BlockAt(lines, start, ValueLines(k, h[k])) {
      var start := FlattenBlock(h, keys, k);
    }
  }

  /** One more value of a header adds its line at the end. */
  lemma ValueLinesSnoc(key: string, values: seq<string>, j: nat)
    requires j < |values|
    ensures ValueLines(key, values[..j + 1]) == ValueLines(key, values[..j]) + [HeaderLine(key, values[j])]
  {
  }

  /** One more header name adds its lines at the end. */
  lemma FlattenSnoc(h: Header, order: seq<string>, key: string)
    requires forall k :: k in order ==> k in h
    requires key in h
    ensures Flatten(h, order + [key]) == Flatten(h, order) + ValueLines(key, h[key])
  {
    assert (order + [key])[..|order|] == order;
  }

  /** GetServerAllHeaderByResponse: Go visits the header map in an unspecified order,
      modelled by picking any key not yet visited. */
  method GetServerAllHeaderByResponse(resp: Response) returns (responseheader: seq<string>)
    ensures IsHeaderListing(resp.headers, responseheader)
    ensures |responseheader| == TotalValues(resp.headers)
    ensures forall k, i :: k in resp.headers && 0 <= i < |resp.headers[k]| ==>
      HeaderLine(k, resp.headers[k][i]) in responseheader
    ensures forall k :: k in resp.headers ==> exists start :: BlockAt(responseheader, start, ValueLines(k, resp.headers[k]))
  {
    var h := resp.headers;
    responseheader := [];
    ghost var order: seq<string> := [];
    var rest := h.Keys;
    while rest != {}
      invariant rest <= h.Keys
      invariant forall k :: k in order <==> k in h && k !in rest
      invariant forall i, j :: 0 <= i < j < |order| ==> order[i] != order[j]
      invariant responseheader == Flatten(h, order)
      decreases rest
    {
      var key :| key in rest;
      var values := h[key];
      ghost var before := responseheader;
      for j := 0 to |values|
        invariant responseheader == before + ValueLines(key, values[..j])
      {
        ValueLinesSnoc(key, values, j);
        responseheader := responseheader + [HeaderLine(key, values[j])];
      }
      assert values[..|values|] == values;
      FlattenSnoc(h, order, key);
      order := order + [key];
      rest := rest - {key};
    }
    assert IsKeyOrder(h, order);
    HeaderListingSpec(h, responseheader);
  }

  /** GetCdnInfoByAll: the five checks run one after the other, none skipped; each
      assignment overwrites `cdn`, so the verdict is the CNAME check's. */
  method GetCdnInfoByAll(
    resp: Response, ips: seq<string>, cdnHeaders: seq<string>, cidr: seq<string>, cdnCidrs: seq<string>,
    asn: seq<string>, cdnAsns: seq<string>, cname: seq<string>, cnameTable: Option<map<string, string>>,
    parseIp: string -> Option<Ip>, checkCdn: Ip -> CdnCheck)
    returns (cdn: int, cdnbyip: bool, cdnbyheader: seq<string>, cdnbycidr: bool, cdnbyasn: bool, cdnbycname: bool)
    ensures cdnbyip == IpEvidence(ips, parseIp, checkCdn)
    ensures cdnbyheader == HeaderEvidence(resp.headers, cdnHeaders)
    ensures cdnbycidr == AnyExactMatch(cidr, cdnCidrs)
    ensures cdnbyasn == AnyExactMatch(asn, cdnAsns)
    ensures cdnbycname == CnameHit(cname, cnameTable)
    ensures cdn == (if cdnbycname then 1 else 0)
  {
    cdn, cdnbyip := GetCDNInfoByIps(ips, parseIp, checkCdn);
    cdn, cdnbyheader := GetCDNInfoByHeader(resp, cdnHeaders);
    cdn, cdnbycidr := GetCDNInfoByCidr(cidr, cdnCidrs);
    cdn, cdnbyasn := GetCDNInfoByAsn(asn, cdnAsns);
    cdn, cdnbycname := GetCDNInfoByCName(cname, cnameTable);
  }

  /** A CIDR hit and a CDN header with no CNAME hit: the combiner's verdict is still 0. */
  method CombinerVerdictIgnoresOtherSignals() returns (cdn: int, byCidr: bool, byHeader: seq<string>)
    ensures byCidr && byHeader == [HeaderLine("X-Cache", "HIT")]
    ensures cdn == 0
  {
    var resp := Response("", [], map["X-Cache" := ["HIT"]], 200);
    var cidr := "104.16.0.0/13";
    var byIp, byAsn, byCName;
    cdn, byIp, byHeader, byCidr, byAsn, byCName := GetCdnInfoByAll(
      resp, [], ["X-Cache"], [cidr], [cidr], [], [], [], Some(map[]),
      (s: string) => None, (ip: Ip) => CdnCheck(false, "", false));
    assert AnyExactMatch([cidr], [cidr]) by { assert [cidr][0] == cidr; }
  }
}
