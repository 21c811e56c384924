# blockconvert core in Dafny

A model of the two pure, sequential parts of blockconvert, a DNS-based domain blocker. Both are stated as Dafny datatypes and pure functions, and the properties are proved.

1. **The rule builder and the decision engine** (`src/domain_filter.rs`).
   - `DomainFilterBuilder` holds eleven sets:
     - allow/deny pairs for exact domains, subdomains, IP addresses and IP subnets;
     - raw ad-block rules;
     - allow and deny regular expressions.
   - Its `add_*` operations apply precedence when a rule is inserted:
     - an allow evicts the same value from the deny side;
     - a domain deny is dropped when an allow already covers it;
     - IP and subnet denies always succeed.
   - `to_domain_filter` freezes the builder into a `DomainFilter`.
   - The filter answers `Option<bool>`: `Some(true)` allowed, `Some(false)` blocked, `None` unknown. It answers for a domain (`domain_is_allowed`), for an IP (`ip_is_allowed`), and for a domain together with its CNAMEs and IPs (`allowed`).
2. **The cache-line codec and the cache pass** (`src/dns_lookup.rs`).
   - `DNSResultRecord::to_string` and `from_str` print and parse a line `domain;cname,...,;ip,...,`.
   - From `lookup_domains`, the model covers:
     - the seven-day freshness test on cache files;
     - the pass that feeds cached records to the callback and removes their domains from the pending set;
     - the early return when nothing is left pending.

Modules, one concept each:

- `Results`: `Option` and `Result`. `Result`'s `Err` carries nothing, like `Err(())`.
- `Text`: the behaviour of Rust's `str::split`, `trim_end`, `char::is_whitespace` and `BufRead::read_line` line boundaries that the codec relies on. Also the lemmas that relate these functions to their inverses.
- `Names`: a domain is a sequence of labels, most specific first. Its parents are its strict, non-empty label suffixes, the names `iter_parent_domains` yields. IP addresses and subnets are opaque tokens.
- `Filter`: the builder, the frozen filter and the three verdict functions.
  - The regex engine, the ad-block engine and subnet containment are foreign libraries. They are the function-valued fields of `Engines`, and nothing is assumed about them.
  - `RegexSet::new` is taken to succeed exactly when every pattern in the set compiles.
- `FilterProperties`:
  - the invariants that every sequence of builder calls keeps;
  - what each insertion does to the verdicts;
  - the scenarios of blockconvert's unit tests.
- `DnsRecord`: the codec and its round trip. Domain and IP parsing are parameters (`Syntax`). A domain prints as its labels joined by dots, and an IP prints as its token.
- `DnsLookup`: freshness, the cache pass (a loop, as in `lookup_domains`), the pending-set reduction, and reading back the text a run appends.

Two points of `lookup_domains` are easy to misread:

- `lookup_domains` invokes the callback for every record that parses from a fresh cache file, also when the record's domain was not pending (`src/dns_lookup.rs:105-108`). `DnsLookup.LoadCache` does the same.
- Some cache files are skipped without being read:
  - a file without a time stamp;
  - a file whose stamp lies in the future, so that `duration_since` fails.

  The code treats both like expired files (`src/dns_lookup.rs:94-117`). `DnsLookup.IsFresh` is false for both.

## Model

| member | source | states |
|---|---|---|
| Names.ParentsAreDroppedPrefixes | src/domain_filter.rs:97-101 | a parent of a domain is exactly what remains after dropping one or more leading labels, leaving at least one |
| Filter.IsSubdomainOfList | src/domain_filter.rs:97-101 | true exactly when some entry of the list is a strict parent of the domain; the domain itself never matches its own entry |
| Filter.AddAllowDomain | src/domain_filter.rs:25-28 | afterwards the domain is in allow_domains and not in disallow_domains; the nine other sets are unchanged |
| Filter.AddDisallowDomain | src/domain_filter.rs:29-35 | the domain is inserted into disallow_domains exactly when it is not in allow_domains and no parent is in allow_subdomains; otherwise the builder is unchanged |
| Filter.AddAllowSubdomain | src/domain_filter.rs:36-39 | afterwards the rule is in allow_subdomains and not in disallow_subdomains; the other sets are unchanged |
| Filter.AddDisallowSubdomain | src/domain_filter.rs:40-44 | dropped only when the very same rule is in allow_subdomains (parents are not consulted); otherwise inserted, and nothing else changes |
| Filter.AddAllowIpAddr | src/domain_filter.rs:46-49 | afterwards the address is allowed and not denied; other sets unchanged |
| Filter.AddDisallowIpAddr | src/domain_filter.rs:50-52 | the address is always inserted into disallow_ips, even when it is allowed; nothing else changes |
| Filter.AddAllowIpSubnet | src/domain_filter.rs:54-57 | afterwards the subnet is allowed and not denied; other sets unchanged |
| Filter.AddDisallowIpSubnet | src/domain_filter.rs:59-61 | the subnet is always inserted into the deny set; nothing else changes |
| Filter.AddAdblockRule | src/domain_filter.rs:63-65 | the rule text joins the ad-block rules; nothing else changes |
| Filter.AddAllowRegex | src/domain_filter.rs:67-71 | a pattern is stored exactly when it compiles; an invalid pattern leaves the builder unchanged |
| Filter.AddDisallowRegex | src/domain_filter.rs:72-76 | a pattern is stored exactly when it compiles; an invalid pattern leaves the builder unchanged |
| Filter.NewRegexSet | src/domain_filter.rs:91-92 | the regex set compiles exactly when every pattern of it does, and then holds exactly those patterns |
| Filter.ToDomainFilter | src/domain_filter.rs:78-94 | defined only when both regex sets compile (the two `unwrap`s); the frozen filter carries every rule set of the builder unchanged |
| Filter.DomainIsAllowed | src/domain_filter.rs:139-160 | any allow condition (exact, a parent, an allow pattern) gives allowed; otherwise an ad-block exception gives allowed; otherwise blocked exactly when a deny condition holds (ad-block match, exact, a parent, a deny pattern); unknown exactly when nothing applies |
| Filter.IpIsAllowed | src/domain_filter.rs:162-172 | allowed exactly when the address is allowed exactly or lies in an allowed subnet; blocked exactly when not allowed and denied exactly or by subnet; unknown otherwise |
| Filter.AnyCnameBlocked | src/domain_filter.rs:127-130 | true exactly when some CNAME's own verdict is blocked |
| Filter.AnyIpBlocked | src/domain_filter.rs:132 | true exactly when some IP's verdict is blocked |
| Filter.Allowed | src/domain_filter.rs:119-137 | a definite domain verdict is returned as is; for an unknown domain the answer is blocked exactly when some CNAME or IP is blocked; allowed is returned only when the domain itself is allowed |
| FilterProperties.ApplyKeepsConsistent | src/domain_filter.rs:25-76 | every builder call keeps the exact pair and the subdomain pair disjoint and every stored pattern valid |
| FilterProperties.RunKeepsConsistent | src/domain_filter.rs:25-76 | any sequence of builder calls keeps those invariants |
| FilterProperties.BuiltBuilderFreezes | src/domain_filter.rs:20-94 | for a builder made by `new` and any calls, both `RegexSet::new(...).unwrap()` succeed and no domain is both allowed and denied, exactly or as a subdomain rule |
| FilterProperties.IpRulesMayOverlap | src/domain_filter.rs:46-61 | the IP and subnet pairs are not kept disjoint: allow then deny leaves the value in both sets |
| FilterProperties.InsertionOrderMatters | src/domain_filter.rs:29-39 | a domain deny stored before its parent is allowed as a subdomain stays stored; in the opposite order it is dropped |
| FilterProperties.AllowDomainEffect | src/domain_filter.rs:25-28 | after allowing a domain its verdict is allowed, and every other domain's verdict is unchanged |
| FilterProperties.DisallowDomainEffect | src/domain_filter.rs:29-35 | after denying a domain its verdict is blocked unless it was already allowed; every other verdict is unchanged |
| FilterProperties.AllowSubdomainEffect | src/domain_filter.rs:36-39 | after allowing a subdomain rule every strict subdomain is allowed; domains it is not a parent of, the rule's own domain included, keep their verdict |
| FilterProperties.DisallowSubdomainEffect | src/domain_filter.rs:40-44 | after denying a subdomain rule every strict subdomain is blocked unless already allowed; all other verdicts, the rule's own domain included, are unchanged |
| FilterProperties.AllowIpAddrEffect | src/domain_filter.rs:46-49 | the allowed address becomes allowed; other addresses keep their verdict |
| FilterProperties.DisallowIpAddrEffect | src/domain_filter.rs:50-52 | the denied address is blocked unless already allowed (allow is checked first, although the deny is stored); other addresses keep their verdict |
| FilterProperties.AllowIpSubnetEffect | src/domain_filter.rs:54-57 | addresses in the subnet become allowed; addresses outside it keep their verdict |
| FilterProperties.DisallowIpSubnetEffect | src/domain_filter.rs:59-61 | addresses in the subnet become blocked unless already allowed; others keep their verdict |
| FilterProperties.AllowRegexEffect | src/domain_filter.rs:67-71 | a valid pattern allows every domain whose text it matches; an invalid pattern, or a domain it does not match, changes nothing |
| FilterProperties.DisallowRegexEffect | src/domain_filter.rs:72-76 | a valid pattern blocks every matching domain not already allowed; otherwise nothing changes |
| FilterProperties.DefaultUnblocked | src/domain_filter.rs:175-183 | an empty builder gives unknown for any domain the rule-less ad-block engine says nothing about |
| FilterProperties.RegexDisallowAllBlocksDomain | src/domain_filter.rs:185-194 | a deny pattern `.` matching the domain blocks it |
| FilterProperties.RegexAllowOverrulesRegexDisallow | src/domain_filter.rs:195-205 | an allow pattern beats a deny pattern matching the same domain |
| FilterProperties.AdblockCanBlockDomain | src/domain_filter.rs:207-216 | an ad-block rule whose engine reports a match and no exception blocks the domain |
| FilterProperties.AdblockCanWhitelistBlockedDomain | src/domain_filter.rs:218-231 | an ad-block exception allows a domain although a deny pattern matches it |
| FilterProperties.SubdomainDisallowBlocksOnlyStrictSubdomains | src/domain_filter.rs:233-265 | denying subdomain `example.com` blocks `www.example.com` and leaves `example.com` unknown |
| FilterProperties.SubdomainAllowWhitelistsDomains | src/domain_filter.rs:244-254 | allowing subdomain `example.com` allows `www.example.com` despite a deny pattern matching it |
| FilterProperties.BlockedCnameBlocksBase | src/domain_filter.rs:267-280 | an unknown domain whose CNAME is denied is blocked |
| FilterProperties.BlockedIpBlocksBase | src/domain_filter.rs:282-295 | an unknown domain with a denied IP is blocked |
| FilterProperties.IgnoresAllowedIps | src/domain_filter.rs:297-311 | an allowed IP does not override a domain that is itself denied |
| FilterProperties.UnblockedIpsDoNotAllow | src/domain_filter.rs:313-326 | an allowed IP does not turn an unknown domain into an allowed one |
| Text.Split | src/dns_lookup.rs:42 | `split` yields at least one piece and no piece contains the separator |
| Text.JoinSplit | src/dns_lookup.rs:42 | joining the pieces of a split with the separator gives the text back |
| Text.SplitJoin | src/dns_lookup.rs:42 | splitting separator-free pieces joined by the separator gives the pieces back |
| Text.SplitCons | src/dns_lookup.rs:42-45 | a separator-free text followed by the separator is the first piece, followed by the pieces of the rest |
| Text.Terminated | src/dns_lookup.rs:26-34 | a list printed with a comma after every item is empty exactly when the list is, and otherwise ends in the comma |
| Text.SplitTerminated | src/dns_lookup.rs:26-47 | a comma-terminated list of comma-free items splits into the items plus one empty tail piece |
| Text.NonEmpty | src/dns_lookup.rs:45 | the filter keeps exactly the non-empty pieces, and only those |
| Text.NonEmptyOne | src/dns_lookup.rs:45 | a single piece is kept exactly when it is non-empty |
| Text.NonEmptyAppend | src/dns_lookup.rs:45 | the kept pieces of a concatenation are those of each part in turn, so the filter keeps order and repetitions |
| Text.NonEmptyDropsOneEmpty | src/dns_lookup.rs:45 | the empty tail piece of a comma-terminated list is dropped and the items are kept in order |
| Text.TrimEnd | src/dns_lookup.rs:52 | `trim_end` returns a prefix that does not end in whitespace, and what it removes is all whitespace |
| Text.TrimEndSuffix | src/dns_lookup.rs:52 | whitespace appended after a text that does not end in whitespace is exactly what `trim_end` removes |
| Text.Lines | src/dns_lookup.rs:99-110 | every line `read_line` yields is non-empty |
| Text.ConcatLines | src/dns_lookup.rs:99-110 | the lines read back concatenate to the file's text: nothing lost or added |
| Text.LinesCons | src/dns_lookup.rs:99-110 | a newline-free text and its newline make exactly one line |
| Text.LinesAppend | src/dns_lookup.rs:99-110 | text appended after a line boundary reads as the old lines followed by the new ones |
| DnsRecord.ToString | src/dns_lookup.rs:22-36 | the line starts with the domain's text and a `;`, and ends in a delimiter (`;` with no IPs, `,` otherwise), never in a newline |
| DnsRecord.ParseAll | src/dns_lookup.rs:45-57 | the pieces parse exactly when every piece does, and the results keep the pieces' order one for one |
| DnsRecord.FromStr | src/dns_lookup.rs:39-63 | fewer than three `;` fields is an error; a line parses exactly when the domain field and every non-empty CNAME and IP piece parse; the result is those values in order; fields after the third are not consulted |
| DnsRecord.RoundTrip | src/dns_lookup.rs:22-63 | parsing a printed record, with any whitespace appended (the newline `read_line` keeps), gives the record back, with its CNAMEs and IPs in order, for empty and non-empty lists |
| DnsRecord.RoundTripExact | src/dns_lookup.rs:22-63 | parsing a printed record gives the record back |
| DnsRecord.ExtraFieldsIgnored | src/dns_lookup.rs:42-57 | a fourth and later `;` field do not change the parse |
| DnsRecord.EmptyPiecesSkipped | src/dns_lookup.rs:44-57 | `d;,,;,` parses to `d` with no CNAMEs and no IPs |
| DnsLookup.AgeSecs | src/dns_lookup.rs:95-97 | the age exists exactly when the stamp is not in the future, and is the number of whole seconds elapsed |
| DnsLookup.FreshnessBoundary | src/dns_lookup.rs:94-97 | a file is read exactly when it has a stamp, the stamp is not in the future, and less than `MAX_AGE` = 7 x 86400 seconds have elapsed |
| DnsLookup.ExpiredFileSkipped | src/dns_lookup.rs:91-118 | a file that is not fresh (no stamp, a future stamp, or at least `MAX_AGE` seconds old) contributes no record wherever it sits in the listing, however well-formed its lines |
| DnsLookup.ExpiredAtMaxAge | src/dns_lookup.rs:91-118 | a file whose stamp is exactly `MAX_AGE` seconds old is skipped wherever it sits in the listing |
| DnsLookup.ParsedLinesAppend | src/dns_lookup.rs:101-110 | the records parsed from two runs of lines are those of the first followed by those of the second |
| DnsLookup.CacheHitsAppend | src/dns_lookup.rs:91-118 | the cache hits of two groups of files are those of the first followed by those of the second |
| DnsLookup.LoadCache | src/dns_lookup.rs:90-118 | the callback receives the parsed lines of the fresh files in file and line order, and pending is the initial domains minus the domains of those records |
| DnsLookup.AfterCache | src/dns_lookup.rs:120-123 | the function returns without opening a file exactly when nothing is pending |
| DnsLookup.LookupDomainsFromCache | src/dns_lookup.rs:80-123 | no lookup is needed exactly when every requested domain had a cached record; otherwise the pending domains are exactly the uncached ones |
| DnsLookup.ReadBackRunLog | src/dns_lookup.rs:137-165 | the text a run appends (a separator newline, then one line per record) reads back as exactly those records, in order |
| DnsLookup.LastLineBoundary | src/dns_lookup.rs:103-110 | any text splits into whole lines followed by a newline-free tail |
| DnsLookup.RerunNeedsNoLookup | src/dns_lookup.rs:90-137 | once a run has appended a record for every requested domain to a still-fresh file, the next run performs no lookup, even when the earlier content ended in a partial line that the separator newline closes |

## Left out

- `src/main.rs` is not part of this model. It holds the CLI, the CSV handling, the key/value database, the certificate stream, threads, channels and signal handling. All of it is I/O and concurrency plumbing.
- The network half of `lookup_domains` (`src/dns_lookup.rs:125-179`) is concurrency and I/O, so it is not modelled. That half covers:
  - the 500-wide `FuturesUnordered` window;
  - the DNS-over-HTTPS calls and the error counter;
  - the `BufWriter` appends and the final flush;
  - the `chrono` file name and the f32 throughput printing.

  Only the text a run appends is modelled (`RunLog`), as the partner of the cache reader.
- The server choice `servers[i % servers.len()]` is not modelled. The network half it belongs to is left out. In the code the counter `i` starts again at 0 after the initial 500 dispatches and grows only when a further lookup is dispatched. An empty server list would panic on the modulus.
- Domain parsing and normalisation (`Domain::from_str`) and `iter_parent_domains` are not shown in the source. Domains are label sequences, parents are strict non-empty suffixes, and domain parsing is a parameter of the codec.
- IP text formatting and parsing are not modelled. An IP is an opaque token that prints as itself, and its parser is a parameter.
- The foreign engines are function parameters (`Engines`), with nothing assumed about them: regex compilation and matching, the ad-block engine with its rule optimiser, and `ipnet` containment. As a consequence:
  - The scenario lemmas say what they need of the ad-block engine as a precondition. An example is "compiled from these two rules, it reports an exception for this URL".
  - The optimiser's dropping of exception rules that overlap no block rule happens inside the engine, so it is not modelled.
- Filter.NewRegexSet: succeeds exactly when every pattern compiles. `RegexSet::new` can also fail on its combined compiled-size limit, which is not modelled. So `BuiltBuilderFreezes` shows that no invalid pattern reaches the `unwrap`, not that the `unwrap` can never panic.
- Filter.ToDomainFilter: the subnet lists stay sets instead of vectors. The verdicts only search them with `any`, so their order has no effect.
- File system errors are not modelled. These are a failing `read_dir` or `metadata` (which the `?` operator propagates), a failing `File::open` (the file is skipped), and a failing `read_line` on text that is not UTF-8 (reading that file stops). Cache files are given to `LoadCache` as a sequence in directory-listing order, each with its time stamps and its text.
- DnsLookup.IsFresh: the code reads `SystemTime::now()` again for each directory entry. `LoadCache` and `CacheHits` take one instant `now` for the whole listing, so a file that expires while the listing is being read is not modelled.
- The "Removing expired record" message is not modelled. No file is removed.
- Text.IsWhitespace lists the Unicode White_Space code points that Rust's `char::is_whitespace` accepts. No other Unicode behaviour is modelled.
