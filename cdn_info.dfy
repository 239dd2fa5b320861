/**
  The CDN evidence checks (utilz/cdnInfo.go), each run over a reference table
  that is already loaded. IP parsing and the IP-intelligence lookup are
  oracles. Only the CNAME check ever sets its `cdn` result; the other four
  leave it at Go's zero value.
 */
module CdnInfo {
  import opened Wrappers
  import opened Strings
  import opened HttpTypes

  /** An address as net.ParseIP returns it. */
  datatype Ip = Ip(bytes: seq<byte>)

  /** What cdncheck's CheckCDN reports: whether the address is a CDN's, the
      provider's name, and whether the lookup failed. */
  datatype CdnCheck = CdnCheck(matched: bool, provider: string, failed: bool)

  /** One IP entry is CDN evidence: after trimming it parses, and the lookup
      succeeds and reports a match. */
  predicate IpMatches(ipStr: string, parseIp: string -> Option<Ip>, checkCdn: Ip -> CdnCheck)
  {
    var ip := parseIp(TrimSpace(ipStr));
    ip.Some? && !checkCdn(ip.value).failed && checkCdn(ip.value).matched
  }

  /** Some entry of the list is CDN evidence. */
  predicate IpEvidence(ips: seq<string>, parseIp: string -> Option<Ip>, checkCdn: Ip -> CdnCheck)
  {
    exists i :: 0 <= i < |ips| && IpMatches(ips[i], parseIp, checkCdn)
  }

  /** GetCDNInfoByIps: true on the first entry that matches; unparsable entries and
      failed lookups are skipped. */
  method GetCDNInfoByIps(ips: seq<string>, parseIp: string -> Option<Ip>, checkCdn: Ip -> CdnCheck)
    returns (cdn: int, cdnbyip: bool)
    ensures cdn == 0
    ensures cdnbyip == IpEvidence(ips, parseIp, checkCdn)
  {
    cdn, cdnbyip := 0, false;
    for k := 0 to |ips|
      invariant !cdnbyip
      invariant forall i :: 0 <= i < k ==> !IpMatches(ips[i], parseIp, checkCdn)
    {
      var ip := parseIp(TrimSpace(ips[k]));
      if ip.None? {
        continue;
      }
      var verdict := checkCdn(ip.value);
      if verdict.failed {
        continue;
      }
      if verdict.matched {
        cdnbyip := true;
        return;
      }
    }
  }

  /** The reference header names that the response carries with a non-empty value,
      in the order of the reference table. */
  function PresentNames(h: Header, names: seq<string>): (present: seq<string>)
  {
    if names == [] then []
    else
      var earlier := PresentNames(h, names[..|names| - 1]);
      var name := names[|names| - 1];
      if Get(h, name) != "" then earlier + [name] else earlier
  }

  /** One "name: value" line per present reference header, in table order. */
  function HeaderEvidence(h: Header, names: seq<string>): (lines: seq<string>)
  {
    var present := PresentNames(h, names);
    seq(|present|, k requires 0 <= k < |present| => HeaderLine(present[k], Get(h, present[k])))
  }

  /** GetCDNInfoByHeader over the loaded table of header names. */
  method GetCDNInfoByHeader(resp: Response, cdnHeaders: seq<string>)
    returns (cdn: int, cdnbyheader: seq<string>)
    ensures cdn == 0
    ensures cdnbyheader == HeaderEvidence(resp.headers, cdnHeaders)
  {
    cdn, cdnbyheader := 0, [];
    for k := 0 to |cdnHeaders|
      invariant cdnbyheader == HeaderEvidence(resp.headers, cdnHeaders[..k])
    {
      var header := cdnHeaders[k];
      var value := Get(resp.headers, header);
      HeaderEvidenceSnoc(resp.headers, cdnHeaders[..k], header);
      assert cdnHeaders[..k + 1] == cdnHeaders[..k] + [header];
      if value != "" {
        cdnbyheader := cdnbyheader + [HeaderLine(header, value)];
      }
    }
    assert cdnHeaders[..|cdnHeaders|] == cdnHeaders;
  }

  /** Checking one more header name adds at most its own line, at the end. */
  lemma HeaderEvidenceSnoc(h: Header, names: seq<string>, name: string)
    ensures HeaderEvidence(h, names + [name]) ==
      HeaderEvidence(h, names) + (if Get(h, name) != "" then [HeaderLine(name, Get(h, name))] else [])
  {
    assert (names + [name])[..|names|] == names;
  }

  /** The present names are exactly the reference names with a non-empty value,
      and there are no more of them than reference names. */
  lemma {:induction false} PresentNamesSpec(h: Header, names: seq<string>)
    ensures |PresentNames(h, names)| <= |names|
    ensures forall x :: x in PresentNames(h, names) <==> x in names && Get(h, x) != ""
  {
    if names != [] {
      var init := names[..|names| - 1];
      PresentNamesSpec(h, init);
      assert names == init + [names[|names| - 1]];
    }
  }

  /** Header evidence: one "name: value" line for each reference name whose value
      is non-empty and for nothing else; never longer than the table, and empty
      exactly when none of those headers is present. */
  lemma HeaderEvidenceSpec(h: Header, names: seq<string>)
    ensures |HeaderEvidence(h, names)| <= |names|
    ensures forall name :: name in names && Get(h, name) != "" ==>
      HeaderLine(name, Get(h, name)) in HeaderEvidence(h, names)
    ensures forall k :: 0 <= k < |HeaderEvidence(h, names)| ==>
      exists name :: name in names && Get(h, name) != "" && HeaderEvidence(h, names)[k] == HeaderLine(name, Get(h, name))
    ensures HeaderEvidence(h, names) == [] <==> forall i :: 0 <= i < |names| ==> Get(h, names[i]) == ""
  {
    PresentNamesSpec(h, names);
    var present := PresentNames(h, names);
    var lines := HeaderEvidence(h, names);
    forall name | name in names && Get(h, name) != "" ensures HeaderLine(name, Get(h, name)) in lines {
      var k :| 0 <= k < |present| && present[k] == name;
      assert lines[k] == HeaderLine(name, Get(h, name));
    }
    forall k | 0 <= k < |lines|
      ensures exists name :: name in names && Get(h, name) != "" && lines[k] == HeaderLine(name, Get(h, name))
    {
      assert present[k] in present;
    }
    if lines == [] {
      forall i | 0 <= i < |names| ensures Get(h, names[i]) == "" {
        assert names[i] !in present;
      }
    } else {
      assert present[0] in present;
    }
  }

  /** The present names are the reference names with a non-empty value, taken in table
      order: name k is table entry idx[k], and the entries increase. */
  lemma {:induction false} PresentNamesOrder(h: Header, names: seq<string>) returns (idx: seq<int>)
    ensures |idx| == |PresentNames(h, names)|
    ensures forall k :: 0 <= k < |idx| ==>
      0 <= idx[k] < |names| && PresentNames(h, names)[k] == names[idx[k]] && Get(h, names[idx[k]]) != ""
    ensures forall k, l :: 0 <= k < l < |idx| ==> idx[k] < idx[l]
    ensures forall i :: 0 <= i < |names| && Get(h, names[i]) != "" ==> i in idx
  {
    if names == [] {
      idx := [];
    } else {
      var init := names[..|names| - 1];
      var name := names[|names| - 1];
      var idx0 := PresentNamesOrder(h, init);
      assert forall i :: 0 <= i < |init| ==> names[i] == init[i];
      if Get(h, name) != "" {
        idx := idx0 + [|init|];
        assert PresentNames(h, names) == PresentNames(h, init) + [name];
      } else {
        idx := idx0;
      }
    }
  }

  /** Header evidence follows the reference table: line k is the line of table entry
      idx[k], a header present with a non-empty value, and the entries increase along
      the lines. */
  lemma HeaderEvidenceOrder(h: Header, names: seq<string>) returns (idx: seq<int>)
    ensures |idx| == |HeaderEvidence(h, names)|
    ensures forall k :: 0 <= k < |idx| ==>
      && 0 <= idx[k] < |names| && Get(h, names[idx[k]]) != ""
      && HeaderEvidence(h, names)[k] == HeaderLine(names[idx[k]], Get(h, names[idx[k]]))
    ensures forall k, l :: 0 <= k < l < |idx| ==> idx[k] < idx[l]
    ensures forall i :: 0 <= i < |names| && Get(h, names[i]) != "" ==> i in idx
  {
    idx := PresentNamesOrder(h, names);
  }

  /** Some non-empty table entry equals some checked string. */
  predicate AnyExactMatch(checks: seq<string>, table: seq<string>)
  {
    exists i, j :: 0 <= i < |checks| && 0 <= j < |table| && table[j] == checks[i] && table[j] != ""
  }

  /** The nested loop shared by the CIDR and the ASN checks, returning on the first hit. */
  method ExactMatch(checks: seq<string>, table: seq<string>) returns (found: bool)
    ensures found <==> AnyExactMatch(checks, table)
  {
    found := false;
    for i := 0 to |checks|
      invariant forall i', j :: 0 <= i' < i && 0 <= j < |table| ==> !(table[j] == checks[i'] && table[j] != "")
    {
      for j := 0 to |table|
        invariant forall j' :: 0 <= j' < j ==> !(table[j'] == checks[i] && table[j'] != "")
      {
        if table[j] == checks[i] && table[j] != "" {
          found := true;
          return;
        }
      }
    }
  }

  /** GetCDNInfoByCidr over the loaded CIDR table. */
  method GetCDNInfoByCidr(cidr: seq<string>, cdnCidrs: seq<string>) returns (cdn: int, cdnbycidr: bool)
    ensures cdn == 0
    ensures cdnbycidr <==> AnyExactMatch(cidr, cdnCidrs)
  {
    cdn := 0;
    cdnbycidr := ExactMatch(cidr, cdnCidrs);
  }

  /** GetCDNInfoByAsn over the loaded ASN table. */
  method GetCDNInfoByAsn(asn: seq<string>, cdnAsn: seq<string>) returns (cdn: int, cdnbyasn: bool)
    ensures cdn == 0
    ensures cdnbyasn <==> AnyExactMatch(asn, cdnAsn)
  {
    cdn := 0;
    cdnbyasn := ExactMatch(asn, cdnAsn);
  }

  /** Some CNAME is a key of the loaded table; a table that failed to load matches nothing. */
  predicate CnameHit(cname: seq<string>, cnameTable: Option<map<string, string>>)
  {
    cnameTable.Some? && exists i :: 0 <= i < |cname| && cname[i] in cnameTable.value
  }

  /** GetCDNInfoByCName: the table is None when ReadCNameJSONFile failed, which is
      logged and yields zero results. */
  method GetCDNInfoByCName(cname: seq<string>, cnameTable: Option<map<string, string>>)
    returns (cdn: int, cdnbycname: bool)
    ensures cdnbycname == CnameHit(cname, cnameTable)
    ensures cdn == (if cdnbycname then 1 else 0)
  {
    cdn, cdnbycname := 0, false;
    if cnameTable.None? {
      return;
    }
    var cnameMap := cnameTable.value;
    for k := 0 to |cname|
      invariant cdn == 0 && !cdnbycname
      invariant forall i :: 0 <= i < k ==> cname[i] !in cnameMap
    {
      if cname[k] !in cnameMap {
        continue;
      }
      if cdn == 0 {
        cdn := 1;
        cdnbycname := true;
      } else {
        cdnbycname := true;
      }
      assert cname[k] in cnameMap;
      break;
    }
  }
}
