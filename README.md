# httpxUtilz, modelled in Dafny

This project models the decision and string logic of httpxUtilz, an HTTP/DNS reconnaissance tool, and proves properties of it. For one URL the scan works as follows:
- The host name is cut out of the URL.
- The resolver list is normalised.
- Up to three stages run, each behind a flag:
  - **Base**: fields derived from one HTTP response (title, banner, status, liveness, lengths, all headers).
  - **Passive**: DNS and ASN lookups, plus five CDN evidence checks and a combiner.
  - **MayVul**: vulnerability rules run on a response.
- The results go into one `Result` record. The zero record marks a failed or skipped scan.

The network, the DNS client, the ASN service, IP parsing, the IP-intelligence lookup, title extraction and the rule matcher are not part of this model. They are parameters:
- plain function values, or
- the `Pipeline.Providers` record of oracles, where `fetch` is indexed by the ordinal of the fetch within one run.

Reference tables arrive already loaded (`Pipeline.Tables`).

Modules follow the source files:
- `Domain` models utilz/domain.go.
- `Resolvers` models utilz/cname.go.
- `CdnInfo` models utilz/cdnInfo.go.
- `Httpx` models utilz/httpx.go; `HttpTypes` holds its `Response` and header map.
- `Request` models utilz/request.go.
- `Pipeline` models cmd/httpxUtilz.go.
- `Strings` holds the parts of Go's `strings` package that the core depends on.
- `Wrappers` holds `Option` and `Result`.

The code has loops, appends or state changes in these places, and the model keeps them:
- `UniqueStrList`;
- the CDN checks;
- the banner and header builders;
- the combiner's five overwriting assignments;
- `NewRequestClient`'s field-by-field defaulting;
- `processURL`'s staged control flow.

These are methods, proved against specification functions (`Dedup`, `HeaderEvidence`, `AnyExactMatch`, `Banner`, `Flatten`, `WithDefaults`, ...) and the lemmas about those functions. The caller's `Headers` map is a Go map, shared by reference even though the config is passed by value. It is therefore the class `Request.HeaderTable`, and `NewRequestClient` modifies it.

Points of the code that the model states as written:
- **CDN verdict.** The verdict `cdn` is not an OR of the five signals. In `GetCdnInfoByAll` (utilz/httpx.go:121-129) the same `cdn` is assigned five times. Only `GetCDNInfoByCName` ever sets it. So the verdict is the CNAME check's: `cdn == 1` exactly when `cdnbycname`. `Httpx.CombinerVerdictIgnoresOtherSignals` exhibits one run with a CIDR hit and a CDN header, and no CNAME hit, that gives `cdn == 0`.
- **Fetch count.** A run can fetch twice. With Base on it fetches once and the later stages reuse that response. Without Base it fetches once for Passive and again for MayVul (cmd/httpxUtilz.go:231-232, 267-268). `Pipeline.FetchCount` is this count. `Pipeline.ProcessURL` proves that no run exceeds it, and that a run that reaches the end meets it.
- **Reference tables that fail to load.** For the header, CIDR and ASN tables the code calls `log.Fatal` (utilz/cdnInfo.go:74,88,107). The checks therefore never run over a missing table, and the model takes those tables as loaded. Only the CNAME table (utilz/cdnInfo.go:124-128) is an `Option`: a table that failed to load yields zero results.
- **Signatures that do not type-check.** The source files do not type-check against each other:
  - The combiner passes strings where the checks take lists, and declares `cdnbyheader` as a string.
  - `GetCNameIPByDomain` returns strings from a producer of lists.
  - `ips := cnameIps + resolveIps` is string concatenation.

  The model uses the list-typed signatures of utilz/cdnInfo.go and utilz/cname.go throughout:
  - The CNAME chain and the IP list are `seq<string>`.
  - `ips` is the two lists concatenated.
  - The CIDR and the ASN from the ASN lookup are passed as one-element lists.

Notes on the model:
- The `Timeout` of `RequestClientConfig` is a Go `time.Duration`, an int64 of nanoseconds. `Timeout * time.Second` wraps on overflow, and the model writes out the wrap (`Request.MulInt64`). Timeouts up to 9223372036 are scaled exactly. One more second wraps to a negative duration.
- `GetResponseByUrl` builds its client with `NewRequestClient(*config)` on every fetch (utilz/httpx.go:49). It never puts `config.Headers` on the request. So the random User-Agent written into the shared map changes the caller's map only. A fetch is therefore modelled by the value `Pipeline.FetchRequest`: the URL, plus the settings of the client (`Request.ClientSettings`, the defaulted config without its Headers map). `Pipeline.Fetch` and `Request.BuildClientTwice` show two things: every fetch of a run uses the same defaulted settings, and only the first client writes the User-Agent.

## Model

| member | source | states |
|---|---|---|
| `Strings.IndexSpec` | utilz/domain.go:12 | `strings.Index` finds an occurrence of the separator, none occurs earlier, and -1 means none occurs at all |
| `Strings.SplitLength` | utilz/domain.go:13-14 | `strings.Split` gives one more piece than `strings.Count` finds separators |
| `Strings.JoinSplit` | utilz/cname.go:18 | joining the pieces of a split with the same separator gives the string back |
| `Strings.SplitCharPieces` | utilz/cname.go:18 | no piece of a split on one character contains that character |
| `Strings.SplitCharHead` | utilz/domain.go:23-31 | the first piece of a split on one character is a prefix free of that character, ending just before its first occurrence |
| `Domain.GetSubDomain` | utilz/domain.go:9-35 | the host name cut out of a URL, or an error carrying the message "GetSubDomain: Invalid domain name"; its other properties are the `Domain` lemma rows below |
| `Domain.GetSubDomainKeepsBareHost` | utilz/domain.go:10-34 | an input without ':' and '/' (hence without "://") comes back unchanged, with no error |
| `Domain.GetSubDomainErrorIff` | utilz/domain.go:12-20 | the error is returned exactly when "://" occurs twice or more, i.e. exactly when "://" occurs and splitting on it does not give two parts (utilz/domain.go:12-14); a URL without "://" is never refused |
| `Domain.GetSubDomainCuts` | utilz/domain.go:12-32 | a successful result is the text after the single "://" (the whole input when there is none), cut at its first ':' and then at its first '/' |
| `Domain.GetSubDomainNoPortNoPath` | utilz/domain.go:23-32 | a successful result contains neither ':' nor '/' |
| `Domain.GetSubDomainIsPrefix` | utilz/domain.go:19-31 | a successful result is a prefix of the text after "://", or of the whole input when there is none |
| `Domain.GetSubDomainHostPortPath` | utilz/domain.go:23-31 | "scheme://host:port/path" gives exactly `host`: the port is cut before the path, whatever the path holds besides a second "://" |
| `Domain.GetSubDomainIdempotent` | utilz/domain.go:12-32 | GetSubDomain applied to its own successful result returns that result with no error |
| `Resolvers.UniqueStrList` | utilz/cname.go:22-32 | the loop over `tempMap` builds `Dedup(strList)`: no duplicates, exactly the non-empty input strings, no longer than the input |
| `Resolvers.DedupNoDuplicates` | utilz/cname.go:25-28 | no string is kept twice |
| `Resolvers.DedupElements` | utilz/cname.go:25-29 | a string is kept iff it occurs in the input and is non-empty |
| `Resolvers.DedupLength` | utilz/cname.go:25-29 | the output is no longer than the input |
| `Resolvers.DedupFirstOccurrenceOrder` | utilz/cname.go:25-28 | kept strings appear in the order of their first occurrences in the input |
| `Resolvers.DedupOfDistinct` | utilz/cname.go:22-32 | a list without duplicates and without empty strings is returned unchanged |
| `Resolvers.DedupIdempotent` | utilz/cname.go:22-32 | de-duplicating twice is the same as once |
| `Resolvers.ContentToList` | utilz/cname.go:18 | definition: the content split on "\n"; its properties are the lemma rows below |
| `Resolvers.ContentToListRoundTrip` | utilz/cname.go:18 | the newline-split lines joined with "\n" give back the content, and no line holds a newline |
| `Resolvers.TrailingPieceEmpty` | utilz/cname.go:18 | content ending in a newline splits with an empty last piece |
| `Resolvers.TrailingNewlineDropped` | utilz/cname.go:35 | that empty last piece is not in the resolver list |
| `Resolvers.ValidResolvers` | utilz/cname.go:35 | the resolver list is the de-duplicated file lines: exactly the non-empty lines, none holding a newline |
| `Resolvers.GetCnameIPsByDomain` | utilz/cname.go:53-70 | definition: DNS's answer for GetSubDomain's host, or no CNAME and no address when GetSubDomain refuses the URL; its properties are the lemma rows below |
| `Resolvers.CnameIPsOfRefusedUrl` | utilz/cname.go:55-59 | a URL with "://" twice or more gets no CNAME and no address, whatever DNS would answer |
| `Resolvers.CnameIPsQueryBareHost` | utilz/cname.go:55-62 | the name DNS is asked about has no port and no path, and the answer is DNS's answer for it |
| `Resolvers.CnameIPsOfHostPortPath` | utilz/cname.go:55-62 | "scheme://host:port/path" is looked up as `host`, for any path without a second "://" |
| `CdnInfo.GetCDNInfoByIps` | utilz/cdnInfo.go:47-69 | `cdn` stays 0; `cdnbyip` is true iff some entry, after trimming, parses and the lookup succeeds with a match; other entries are skipped |
| `CdnInfo.GetCDNInfoByHeader` | utilz/cdnInfo.go:71-83 | `cdn` stays 0; the evidence is `HeaderEvidence`: one "name: value" line per reference name present, in table order |
| `CdnInfo.HeaderEvidenceSnoc` | utilz/cdnInfo.go:78-80 | checking one more reference name adds its line at the end when its value is non-empty, and nothing otherwise |
| `CdnInfo.PresentNamesSpec` | utilz/cdnInfo.go:77-81 | the names with evidence are exactly the reference names with a non-empty value, no more of them than reference names |
| `CdnInfo.HeaderEvidenceSpec` | utilz/cdnInfo.go:77-81 | a line for every present reference header and only for those; never longer than the table; empty iff none is present |
| `CdnInfo.PresentNamesOrder` | utilz/cdnInfo.go:77-81 | the names with evidence are the table entries with a non-empty value, taken in strictly increasing table position, and every such entry is taken |
| `CdnInfo.HeaderEvidenceOrder` | utilz/cdnInfo.go:77-81 | each evidence line is the "name: value" line of a present table entry; the lines follow the table's order; every present entry, duplicates included, has its line |
| `CdnInfo.ExactMatch` | utilz/cdnInfo.go:92-99 | the nested loop returns true iff some checked string equals some non-empty table entry |
| `CdnInfo.GetCDNInfoByCidr` | utilz/cdnInfo.go:85-102 | `cdn` stays 0; `cdnbycidr` iff some CIDR equals some non-empty reference entry |
| `CdnInfo.GetCDNInfoByAsn` | utilz/cdnInfo.go:104-121 | `cdn` stays 0; `cdnbyasn` iff some ASN equals some non-empty reference entry |
| `CdnInfo.GetCDNInfoByCName` | utilz/cdnInfo.go:123-146 | `cdnbycname` iff the table loaded and some CNAME is one of its keys, and then `cdn == 1`; otherwise both are zero |
| `Httpx.GetAliveByResponse` | utilz/httpx.go:71-77 | alive is 0 or 1, and 0 iff the status is 404 or 502 |
| `Httpx.GetStatusByResponse` | utilz/httpx.go:110-113 | the status is passed through unchanged |
| `Httpx.GetServerByResponse` | utilz/httpx.go:84-98 | the banner is `server + ","` (if non-empty), then `via + ","` (if non-empty), then X-Powered-By; it is "" iff all three are "" |
| `Httpx.BannerSplit` | utilz/httpx.go:84-98 | for comma-free values, splitting the banner on "," gives back the non-empty Server and Via values and then X-Powered-By |
| `Httpx.TotalValuesRemove` | utilz/httpx.go:101 | the number of header values does not depend on which header the map iteration visits first |
| `Httpx.FlattenLength` | utilz/httpx.go:101-105 | the flattening over a key order has one line per value of the headers it covers |
| `Httpx.FlattenHasPair` | utilz/httpx.go:101-105 | each value of a covered header appears as its "key: value" line |
| `Httpx.FlattenBlock` | utilz/httpx.go:102-104 | the lines of one header form one contiguous block, in the order of its values |
| `Httpx.HeaderListingSpec` | utilz/httpx.go:100-108 | any listing, whatever the map iteration order, has exactly one line per header value, holds every (key, value) line, and keeps each header's values together, in order |
| `Httpx.GetServerAllHeaderByResponse` | utilz/httpx.go:100-108 | the nested loop over the header map produces a flattening for some iteration order of the map, with the properties above |
| `Httpx.GetCdnInfoByAll` | utilz/httpx.go:120-132 | all five checks run and each signal is returned unchanged; the verdict is the CNAME check's: `cdn == 1` iff `cdnbycname` |
| `Httpx.CombinerVerdictIgnoresOtherSignals` | utilz/httpx.go:121-131 | one run with a CIDR hit and a CDN header, and no CNAME hit, gives `cdn == 0`; the general rule is `GetCdnInfoByAll`'s `cdn == 1` iff `cdnbycname` |
| `Request.WrapInt64` | utilz/request.go:29 | the int64 wrap-around agrees with the exact value modulo 2^64 and is exact within range |
| `Request.MulInt64` | utilz/request.go:29 | Go's int64 product agrees with the exact product modulo 2^64 |
| `Request.TimeoutScaledExactly` | utilz/request.go:26-30 | a Timeout of at most 9223372036 is multiplied by one second exactly |
| `Request.TimeoutWraps` | utilz/request.go:29 | a Timeout of 9223372037 wraps to a negative duration |
| `Request.HeaderTable.constructor` | cmd/httpxUtilz.go:161-163 | the Headers map processURL builds holds the given entries |
| `Request.HeaderTable.Lookup` | utilz/request.go:37 | a Go map read: the stored value, or "" for a missing key |
| `Request.HeaderTable.Set` | utilz/request.go:38 | the map write changes exactly that key |
| `Request.GetRandomUserAgent` | utilz/request.go:94-104 | the User-Agent is one of the five fixed strings and is non-empty |
| `Request.WithDefaults` | utilz/request.go:26-42 | Timeout 0 becomes 30 s, any other is multiplied by one second with int64 wrap; MaxRedirects becomes 10 iff redirects are followed and it was 0; an empty Method becomes "GET" and a non-empty one is kept; FollowSameHost is cleared iff it was set while MaxRedirects is still 0, which needs FollowRedirects off; proxy, TLS, redirect and User-Agent flags and the Headers map are kept |
| `Request.NewRequestClient` | utilz/request.go:25-42 | the client's config is `WithDefaults(config)`; the caller's Headers map gains a random User-Agent exactly when RandomUserAgent is set and none is present, and is otherwise unchanged |
| `Request.BuildClientTwice` | utilz/request.go:37-39 | two clients built from one config close over the same defaulted config; only the first writes the User-Agent, and when it does not write one the map is unchanged |
| `Request.CheckRedirect` | utilz/request.go:52-65 | a redirect is followed iff FollowRedirects is on, fewer than MaxRedirects requests were made, and FollowSameHost is on or the host equals the last request's host |
| `Request.ChainBounded` | utilz/request.go:61-63 | a redirect is followed only while fewer than MaxRedirects requests were made, so a chain holds at most MaxRedirects - 1 redirects |
| `Request.ChainSameHost` | utilz/request.go:56-60 | with FollowSameHost off, every followed redirect stays on the first host |
| `Pipeline.IsResultEmpty` | cmd/httpxUtilz.go:99-104 | a result is empty iff every field of its three sub-records has its zero value |
| `Pipeline.ConfigOf` | cmd/httpxUtilz.go:154-166 | processURL's config copies each of the eight parameter fields (proxy, TLS flag, redirect flag, MaxRedirects, Method, random-User-Agent flag, FollowSameHost, Timeout) and carries the given Headers map |
| `Pipeline.PassiveIps` | cmd/httpxUtilz.go:221-223 | the passive addresses are the DNS A records, in order, followed by asnmap's addresses, in order |
| `Pipeline.FetchCount` | cmd/httpxUtilz.go:182-273 | a completed run fetches once with Base; otherwise once for Passive and once for MayVul, so at most twice |
| `Pipeline.Fetch` | utilz/httpx.go:43-69 | each fetch builds a client from the shared config, sends `FetchRequest(url, Settings(WithDefaults(config)))`, and returns the oracle's response; the shared Headers map gains the User-Agent drawn for this fetch exactly when the flag is set and none is present, and is otherwise unchanged |
| `Pipeline.FetchNext` | cmd/httpxUtilz.go:231-236 | one more fetch is appended to the run's log; the log stays good iff the fetch succeeds; the Headers map changes as for `Fetch` |
| `Pipeline.BaseStage` | cmd/httpxUtilz.go:189-209 | the base record holds the URL, title, banner triple, status, liveness, both content lengths, and a header listing of the response |
| `Pipeline.PassiveStage` | cmd/httpxUtilz.go:239-259 | the passive record holds the CNAME chain, the addresses, the ASN fields and each CDN signal as the checks define it, with the CNAME check's verdict |
| `Pipeline.PassivePhase` | cmd/httpxUtilz.go:220-260 | the passive stage adds at most one fetch (none with Base) and keeps the earlier log; it stops the run, before any fetch of its own, when no address is found, and stops it when its own fetch fails, and otherwise works on the first response of the run; the Headers map changes only when it fetches |
| `Pipeline.RulePhase` | cmd/httpxUtilz.go:262-275 | without Base the rule stage fetches again, never beyond `FetchCount`, with every fetch before the last successful; the rules run on the last response; it stops the run iff that fetch fails; the Headers map changes only when it fetches |
| `Pipeline.ProcessURL` | cmd/httpxUtilz.go:153-283 | every fetch goes to the URL with the same defaulted client settings; no run makes more than `FetchCount` fetches, and only the last one can fail; a failed fetch or an empty address list gives the zero Result, and an empty address list stops the run with only the Base fetch made; a completed run makes exactly `FetchCount` fetches and has `BaseInfo.Url == Url`, so it is never empty for a non-empty URL; each stage whose flag is off leaves its record zero (Base off leaves only the URL); base and passive work on the first response, the rules on the last |
| `Pipeline.ProcessURLWhenFetchesSucceed` | cmd/httpxUtilz.go:153-283 | when every fetch ordinal below `FetchCount` succeeds for every request and the passive stage (when on) finds an address, the result carries the URL, is not empty for a non-empty URL, and has zero records for the stages that are off |

## Left out

- The orchestrators `ProcessURLFromLine`, `ProcessURLFromGroup` and `ProcessURLFromPipe` (cmd/httpxUtilz.go:285-496) are not modelled. They are about goroutines, rate limiting and worker pools.
- File I/O is not modelled: `readURLsFromFile`, `WriteBufferToFile`, `ReadJSONFile`, `ReadCNameJSONFile` and the file read of `FileContentToList`. Tables and file content are parameters.
- JSON serialisation of `Result` is not modelled.
- `log.Fatal` on the header, CIDR and ASN table loads (utilz/cdnInfo.go:74,88,107) is not modelled, because it ends the process; those tables are taken as loaded. The log lines themselves (for example GetSubDomain's `log.Println`) are not modelled either.
- Inside `GetResponseByUrl` (utilz/httpx.go:43-69), URL parsing, the HTTP request and the body read are one oracle, `Providers.fetch`. That function ends the process with `log.Fatal` when any of them fails. The model instead gives a failed fetch to `processURL`'s own error branch, as processURL is written.
- The `http.Transport`, the proxy (`getProxy`), the TLS setting (`getTLSConfig`) and `parseUrl` (utilz/request.go:44-47, 66-112) are not modelled. Neither are the redirect requests themselves: `CheckRedirect` is modelled over host names.
- The DNS client (`DnsxClient`, `QueryOne`), asnmap (`GetIpsByAsnmap`, `GetAsnInfoByIps`), `cdncheck.CheckCDN` and `net.ParseIP` are oracles. A nil client returned by `DnsxClient` on error would panic in Go; that is not modelled.
- `ExtractTitle`, `GetBannerByResponse`, the two content-length getters and `GetMayVulInfoByRespone` (which uses utilz/matchRule.go) are oracles. They are not part of this model.
- Randomness in `getRandomUserAgent` (seeding and `rand.Intn`) is a parameter `pick`. Only membership in the fixed list is stated.
- `Pipeline.IsResultEmpty` compares with the zero Result by value. The nil-versus-empty distinction that `reflect.DeepEqual` makes is not modelled: in Go, a non-nil empty slice or map makes a result non-empty.
- Header-key canonicalisation of `http.Header.Get` is not modelled: header keys are taken as canonical.
- A nil `Headers` map would panic on the User-Agent write; that is not modelled, because processURL always builds one.
- The fields of `ProcessUrlParams` that processURL does not read (URLPipe, Filename, Processes, RateLimit, Res, ResultFile) are omitted. `Timeout` is taken as already an int64.
- The CLI in cmd/httpxUtilz/main.go is not part of this model.
- `Strings.TrimSpace` does not model Go's treatment of invalid UTF-8; strings are sequences of Unicode characters.
