/**
  Hostname extraction (utilz/domain.go): the scheme, the port and the path are
  cut off a URL by plain string operations, and a URL holding the scheme
  separator more than once is refused.
 */
module Domain {
  import opened Wrappers
  import opened Strings

  const SchemeSep: string := "://"
  const InvalidDomainName: string := "GetSubDomain: Invalid domain name"

  /** GetSubDomain: `url` without scheme, port and path, or an error when
      splitting on "://" does not give exactly two parts. */
  function GetSubDomain(url: string): (r: Result<string>)
    ensures r.Err? ==> r.message == InvalidDomainName
  {
    if Contains(url, SchemeSep) && |Split(url, SchemeSep)| != 2 then Err(InvalidDomainName)
    else
      var host := if Contains(url, SchemeSep) then Split(url, SchemeSep)[1] else url;
      var noPort := if Contains(host, ":") then Split(host, ":")[0] else host;
      var noPath := if Contains(noPort, "/") then Split(noPort, "/")[0] else noPort;
      Ok(noPath)
  }

  /** The text after the first "://", or the whole URL when there is none. */
  function AfterScheme(url: string): (rest: string)
  {
    var i := Index(url, SchemeSep);
    if i < 0 then url else url[i + |SchemeSep|..]
  }

  /** A string that is already a bare host name comes back unchanged and without error. */
  lemma GetSubDomainKeepsBareHost(url: string)
    requires ':' !in url && '/' !in url
    ensures GetSubDomain(url) == Ok(url)
  {
    SchemeSepHasColon(url);
    ContainsChar(url, ':');
    ContainsChar(url, '/');
  }

  /** An occurrence of "://" puts a ':' in the string. */
  lemma SchemeSepHasColon(s: string)
    ensures Contains(s, SchemeSep) ==> ':' in s
  {
    if Contains(s, SchemeSep) {
      IndexSpec(s, SchemeSep);
      var i := Index(s, SchemeSep);
      assert s[i..i + 3][0] == s[i];
    }
  }

  /** Putting a string free of ':' in front of one without "://" makes no "://". */
  lemma NoSchemeSepJoin(a: string, b: string)
    requires ':' !in a && !Contains(b, SchemeSep)
    ensures !Contains(a + b, SchemeSep)
  {
    var s := a + b;
    IndexSpec(b, SchemeSep);
    forall j | 0 <= j && j + 3 <= |s| ensures !OccursAt(s, SchemeSep, j) {
      if j < |a| {
        assert s[j..j + 3][0] == s[j] == a[j];
      } else {
        assert s[j..j + 3] == b[j - |a|..j - |a| + 3];
        assert !OccursAt(b, SchemeSep, j - |a|);
      }
    }
    IndexSpec(s, SchemeSep);
  }

  /** A ':' not followed by '/', between a string free of ':' and one without "://",
      makes no "://". */
  lemma NoSchemeSepAfterColon(a: string, b: string)
    requires ':' !in a && !Contains(b, SchemeSep) && (b == [] || b[0] != '/')
    ensures !Contains(a + [':'] + b, SchemeSep)
  {
    var t := [':'] + b;
    IndexSpec(b, SchemeSep);
    forall j | 0 <= j && j + 3 <= |t| ensures !OccursAt(t, SchemeSep, j) {
      if j == 0 {
        assert t[j..j + 3][1] == t[1] == b[0];
      } else {
        assert t[j..j + 3] == b[j - 1..j + 2];
        assert !OccursAt(b, SchemeSep, j - 1);
      }
    }
    IndexSpec(t, SchemeSep);
    NoSchemeSepJoin(a, t);
    assert a + [':'] + b == a + t;
  }

  /** A string with exactly one "://", after a scheme free of ':', splits into two parts. */
  lemma SplitAtScheme(a: string, rest: string)
    requires ':' !in a && !Contains(rest, SchemeSep)
    ensures Split(a + SchemeSep + rest, SchemeSep) == [a, rest]
  {
    var s := a + SchemeSep + rest;
    assert OccursAt(s, SchemeSep, |a|) by { assert s[|a|..|a| + 3] == SchemeSep; }
    forall j | 0 <= j < |a| ensures !OccursAt(s, SchemeSep, j) {
      assert s[j..j + 3][0] == s[j] == a[j];
    }
    IndexSpec(s, SchemeSep);
    assert Index(s, SchemeSep) == |a|;
    assert s[..|a|] == a && s[|a| + 3..] == rest;
    assert Split(rest, SchemeSep) == [rest];
  }

  /** The error is returned exactly when "://" occurs more than once. */
  lemma GetSubDomainErrorIff(url: string)
    ensures GetSubDomain(url).Err? <==> Count(url, SchemeSep) >= 2
  {
    SplitLength(url, SchemeSep);
  }

  /** What the host part of a successful result is cut from. */
  lemma GetSubDomainCuts(url: string)
    requires GetSubDomain(url).Ok?
    ensures var host := AfterScheme(url);
      var d := GetSubDomain(url).value;
      var noPort := Split(host, ":")[0];
      && noPort == host[..|noPort|] && ':' !in noPort
      && (':' in host ==> host[|noPort|] == ':')
      && d == Split(noPort, "/")[0]
  {
    var host := AfterScheme(url);
    if Contains(url, SchemeSep) {
      var i := Index(url, SchemeSep);
      assert Split(url, SchemeSep) == [url[..i]] + Split(url[i + 3..], SchemeSep);
      SplitLength(url, SchemeSep);
      SplitLength(url[i + 3..], SchemeSep);
      assert !Contains(url[i + 3..], SchemeSep);
      assert Split(url, SchemeSep)[1] == host;
    }
    ContainsChar(host, ':');
    SplitCharHead(host, ':');
    var noPort := Split(host, ":")[0];
    if ':' !in host { SplitCharNone(host, ':'); }
    ContainsChar(noPort, '/');
    if '/' !in noPort { SplitCharNone(noPort, '/'); }
  }

  /** A successful result holds neither ':' nor '/'. */
  lemma GetSubDomainNoPortNoPath(url: string)
    requires GetSubDomain(url).Ok?
    ensures ':' !in GetSubDomain(url).value && '/' !in GetSubDomain(url).value
  {
    GetSubDomainCuts(url);
    var noPort := Split(AfterScheme(url), ":")[0];
    SplitCharHead(noPort, '/');
  }

  /** A successful result is a prefix of the text after the single "://"
      (of the whole input when there is none). */
  lemma GetSubDomainIsPrefix(url: string)
    requires GetSubDomain(url).Ok?
    ensures var d := GetSubDomain(url).value;
      |d| <= |AfterScheme(url)| && d == AfterScheme(url)[..|d|]
  {
    GetSubDomainCuts(url);
    var noPort := Split(AfterScheme(url), ":")[0];
    SplitCharHead(noPort, '/');
  }

  /** Applying GetSubDomain to its own successful result changes nothing. */
  lemma GetSubDomainIdempotent(url: string)
    requires GetSubDomain(url).Ok?
    ensures GetSubDomain(GetSubDomain(url).value) == GetSubDomain(url)
  {
    GetSubDomainNoPortNoPath(url);
    GetSubDomainKeepsBareHost(GetSubDomain(url).value);
  }

  /** The port is cut before the path: "scheme://host:port/path" gives the host
      (so "http://example.com:8080/path" gives "example.com"), whatever ':' the
      path holds, as long as it holds no second "://". */
  lemma GetSubDomainHostPortPath(scheme: string, host: string, port: string, path: string)
    requires ':' !in scheme && ':' !in host && '/' !in host
    requires port != [] && ':' !in port && '/' !in port && !Contains(path, SchemeSep)
    ensures GetSubDomain(scheme + SchemeSep + host + ":" + port + "/" + path) == Ok(host)
  {
    var b := port + "/" + path;
    var rest := host + [':'] + b;
    assert b[0] == port[0];
    NoSchemeSepJoin(port + "/", path);
    NoSchemeSepAfterColon(host, b);
    SplitAtScheme(scheme, rest);
    assert scheme + SchemeSep + host + ":" + port + "/" + path == scheme + SchemeSep + rest;
    SplitCharConcat(host, ':', b);
    ContainsChar(rest, ':');
    ContainsChar(host, '/');
  }
}
