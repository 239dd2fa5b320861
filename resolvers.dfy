/**
  Resolver-list normalisation (utilz/cname.go): the content of the resolver file
  is split into lines, and the lines are de-duplicated, keeping the first
  occurrence of each and dropping empty ones. The DNS lookup itself is an
  oracle from host name to CNAME chain and A records.
 */
module Resolvers {
  import opened Wrappers
  import opened Strings
  import Domain

  /** The list UniqueStrList builds: the input scanned left to right, each
      non-empty string kept the first time it is met. */
  function Dedup(s: seq<string>): (kept: seq<string>)
  {
    if s == [] then []
    else
      var kept := Dedup(s[..|s| - 1]);
      var v := s[|s| - 1];
      if v == "" || v in kept then kept else kept + [v]
  }

  /** The position of the first occurrence of `x` in `s`. */
  function FirstIndexOf(s: seq<string>, x: string): (k: nat)
    requires x in s
    ensures k < |s| && s[k] == x && x !in s[..k]
  {
    if s[0] == x then 0
    else
      assert x in s[1..];
      var k := FirstIndexOf(s[1..], x);
      assert s[..k + 1] == [s[0]] + s[1..][..k];
      k + 1
  }

  /** UniqueStrList (utilz/cname.go:22-32). `tempMap` records the strings already kept;
      a missing key reads as false, as Go's map lookup gives the zero value. */
  method UniqueStrList(strList: seq<string>) returns (uniqList: seq<string>)
    ensures uniqList == Dedup(strList)
    ensures forall i, j :: 0 <= i < j < |uniqList| ==> uniqList[i] != uniqList[j]
    ensures forall x :: x in uniqList <==> x in strList && x != ""
    ensures |uniqList| <= |strList|
  {
    uniqList := [];
    var tempMap: map<string, bool> := map[];
    for i := 0 to |strList|
      invariant uniqList == Dedup(strList[..i])
      invariant forall v :: v in tempMap ==> tempMap[v]
      invariant forall v :: v in tempMap <==> v in uniqList
    {
      var v := strList[i];
      var seen := v in tempMap && tempMap[v];
      if !seen && |v| > 0 {
        tempMap := tempMap[v := true];
        uniqList := uniqList + [v];
      }
      assert strList[..i + 1][..i] == strList[..i];
    }
    assert strList[..|strList|] == strList;
    DedupNoDuplicates(strList);
    DedupElements(strList);
    DedupLength(strList);
  }

  /** No string is kept twice. */
  lemma {:induction false} DedupNoDuplicates(s: seq<string>)
    ensures forall i, j :: 0 <= i < j < |Dedup(s)| ==> Dedup(s)[i] != Dedup(s)[j]
  {
    if s != [] {
      DedupNoDuplicates(s[..|s| - 1]);
    }
  }

  /** The kept strings are exactly the non-empty strings of the input. */
  lemma {:induction false} DedupElements(s: seq<string>)
    ensures forall x :: x in Dedup(s) <==> x in s && x != ""
  {
    if s != [] {
      var init := s[..|s| - 1];
      DedupElements(init);
      assert s == init + [s[|s| - 1]];
    }
  }

  /** The output is no longer than the input. */
  lemma {:induction false} DedupLength(s: seq<string>)
    ensures |Dedup(s)| <= |s|
  {
    if s != [] {
      DedupLength(s[..|s| - 1]);
    }
  }

  /** Extending a list at the end moves no first occurrence. */
  lemma FirstIndexOfPrefix(s: seq<string>, v: string, x: string)
    requires x in s
    ensures FirstIndexOf(s + [v], x) == FirstIndexOf(s, x)
  {
    var k := FirstIndexOf(s, x);
    var k' := FirstIndexOf(s + [v], x);
    var t := s + [v];
    forall j | 0 <= j < k' ensures t[j] != x {
      assert t[..k'][j] == t[j];
    }
    forall j | 0 <= j < k ensures s[j] != x {
      assert s[..k][j] == s[j];
    }
    assert t[k] == x;
    assert k' < |s| ==> t[k'] == s[k'];
  }

  /** A string new to a list first occurs where it is appended. */
  lemma FirstIndexOfNew(s: seq<string>, v: string)
    requires v !in s
    ensures FirstIndexOf(s + [v], v) == |s|
  {
    var t := s + [v];
    forall j | 0 <= j < |s| ensures t[j] != v {
      assert t[j] == s[j];
    }
  }

  /** Keeping the first-occurrence order while one more string is read: `out` is the
      kept list before it, or that list with `v` appended when `v` is new. */
  lemma OrderStep(init: seq<string>, v: string, kept: seq<string>, out: seq<string>)
    requires forall x :: x in kept ==> x in init
    requires forall i, j :: 0 <= i < j < |kept| ==> FirstIndexOf(init, kept[i]) < FirstIndexOf(init, kept[j])
    requires out == kept || (v !in init && out == kept + [v])
    ensures forall x :: x in out ==> x in init + [v]
    ensures forall i, j :: 0 <= i < j < |out| ==> FirstIndexOf(init + [v], out[i]) < FirstIndexOf(init + [v], out[j])
  {
    forall i, j | 0 <= i < j < |out| ensures FirstIndexOf(init + [v], out[i]) < FirstIndexOf(init + [v], out[j]) {
      assert out[i] == kept[i];
      FirstIndexOfPrefix(init, v, kept[i]);
      if j < |kept| {
        assert out[j] == kept[j];
        FirstIndexOfPrefix(init, v, kept[j]);
      } else {
        assert out[j] == v;
        FirstIndexOfNew(init, v);
      }
    }
  }

  /** The kept strings appear in the order of their first occurrences in the input. */
  lemma {:induction false} DedupFirstOccurrenceOrder(s: seq<string>)
    ensures forall x :: x in Dedup(s) ==> x in s
    ensures forall i, j :: 0 <= i < j < |Dedup(s)| ==>
      FirstIndexOf(s, Dedup(s)[i]) < FirstIndexOf(s, Dedup(s)[j])
  {
    DedupElements(s);
    if s != [] {
      var init := s[..|s| - 1];
      var v := s[|s| - 1];
      assert s == init + [v];
      DedupFirstOccurrenceOrder(init);
      DedupElements(init);
      OrderStep(init, v, Dedup(init), Dedup(s));
    }
  }

  /** A list without duplicates and without empty strings is its own de-duplication. */
  lemma {:induction false} DedupOfDistinct(s: seq<string>)
    requires forall i, j :: 0 <= i < j < |s| ==> s[i] != s[j]
    requires "" !in s
    ensures Dedup(s) == s
  {
    if s != [] {
      var init := s[..|s| - 1];
      DedupOfDistinct(init);
      assert s[|s| - 1] !in init;
      assert s == init + [s[|s| - 1]];
    }
  }

  /** UniqueStrList is idempotent. */
  lemma DedupIdempotent(s: seq<string>)
    ensures Dedup(Dedup(s)) == Dedup(s)
  {
    DedupNoDuplicates(s);
    DedupElements(s);
    DedupOfDistinct(Dedup(s));
  }

  /** The `strings.Split(content, "\n")` step of FileContentToList over content already read. */
  function ContentToList(content: string): (lines: seq<string>)
  {
    Split(content, "\n")
  }

  /** The lines joined with "\n" give back the content, and no line holds a newline. */
  lemma ContentToListRoundTrip(content: string)
    ensures Join(ContentToList(content), "\n") == content
    ensures forall k :: 0 <= k < |ContentToList(content)| ==> '\n' !in ContentToList(content)[k]
  {
    JoinSplit(content, "\n");
    SplitCharPieces(content, '\n');
  }

  /** Content ending in a newline leaves an empty last piece, which de-duplication drops. */
  lemma {:induction false} TrailingNewlineDropped(content: string)
    requires content != [] && content[|content| - 1] == '\n'
    ensures var lines := ContentToList(content);
      lines[|lines| - 1] == "" && "" !in Dedup(lines)
  {
    TrailingPieceEmpty(content);
    DedupElements(ContentToList(content));
  }

  /** The last piece of a split is what follows the last newline. */
  lemma {:induction false} TrailingPieceEmpty(s: string)
    requires s != [] && s[|s| - 1] == '\n'
    ensures var parts := Split(s, "\n"); parts[|parts| - 1] == ""
    decreases |s|
  {
    IndexChar(s, '\n');
    var i := Index(s, "\n");
    var rest := s[i + 1..];
    assert Split(s, "\n") == [s[..i]] + Split(rest, "\n");
    if rest == [] {
      SplitCharNone(rest, '\n');
    } else {
      assert rest[|rest| - 1] == '\n';
      TrailingPieceEmpty(rest);
    }
  }

  /** The resolver list handed to the DNS client (utilz/cname.go:35): the file's
      lines, de-duplicated and without empty lines. */
  method ValidResolvers(content: string) returns (resolvers: seq<string>)
    ensures resolvers == Dedup(ContentToList(content))
    ensures forall x :: x in resolvers <==> x in ContentToList(content) && x != ""
    ensures forall k :: 0 <= k < |resolvers| ==> '\n' !in resolvers[k]
  {
    var lines := ContentToList(content);
    resolvers := UniqueStrList(lines);
    ContentToListRoundTrip(content);
    forall k | 0 <= k < |resolvers| ensures '\n' !in resolvers[k] {
      assert resolvers[k] in lines;
      var k' :| 0 <= k' < |lines| && lines[k'] == resolvers[k];
    }
  }

  /** A DNS answer: the CNAME chain and the A records of one host name. */
  datatype DnsAnswer = DnsAnswer(cname: seq<string>, a: seq<string>)

  /** GetCnameIPsByDomain (utilz/cname.go:53-69): DNS is asked about the host name cut
      out of the URL, and a URL GetSubDomain refuses yields no CNAME and no address. */
  function GetCnameIPsByDomain(url: string, dns: string -> DnsAnswer): (answer: DnsAnswer)
  {
    match Domain.GetSubDomain(url)
    case Err(_) => DnsAnswer([], [])
    case Ok(domain) => dns(domain)
  }

  /** A URL holding "://" twice or more gets an empty answer, whatever DNS would say. */
  lemma CnameIPsOfRefusedUrl(url: string, dns: string -> DnsAnswer)
    requires Count(url, Domain.SchemeSep) >= 2
    ensures GetCnameIPsByDomain(url, dns) == DnsAnswer([], [])
  {
    Domain.GetSubDomainErrorIff(url);
  }

  /** "scheme://host:port/path" is looked up as `host`. */
  lemma CnameIPsOfHostPortPath(scheme: string, host: string, port: string, path: string, dns: string -> DnsAnswer)
    requires ':' !in scheme && ':' !in host && '/' !in host
    requires port != [] && ':' !in port && '/' !in port && !Contains(path, Domain.SchemeSep)
    ensures GetCnameIPsByDomain(scheme + Domain.SchemeSep + host + ":" + port + "/" + path, dns) == dns(host)
  {
    Domain.GetSubDomainHostPortPath(scheme, host, port, path);
  }

  /** The name DNS is asked about never carries a port or a path. */
  lemma CnameIPsQueryBareHost(url: string, dns: string -> DnsAnswer)
    requires Domain.GetSubDomain(url).Ok?
    ensures var host := Domain.GetSubDomain(url).value;
      ':' !in host && '/' !in host && GetCnameIPsByDomain(url, dns) == dns(host)
  {
    Domain.GetSubDomainNoPortNoPath(url);
  }
}
