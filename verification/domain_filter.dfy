/** The rule builder and the frozen decision engine of the DNS blocker.

    The builder accumulates allow/deny rules in eleven sets and applies its
    precedence at insertion time. `ToDomainFilter` freezes it into a
    `DomainFilter`, whose verdicts are `Option<bool>`: `Some(true)` allowed,
    `Some(false)` blocked, `None` unknown.

    The regex engine, the ad-block engine and subnet containment are foreign
    libraries. They enter the model as the function-valued fields of
    `Engines`, about which nothing is assumed. */
module Filter {
  import opened Results
  import opened Names

  /** What the ad-block engine reports for one URL: a block rule matched,
      and an exception rule matched. */
  datatype BlockerResult = BlockerResult(matched: bool, exception: bool)

  /** The foreign engines, left uninterpreted:
      - `regexValid(re)`: `regex::Regex::new(re).is_ok()`;
      - `regexMatches(re, text)`: pattern `re` matches somewhere in `text`;
      - `adblockCheck(rules, url)`: the engine compiled from `rules` checks `url`;
      - `netContains(net, ip)`: `net.contains(ip)`. */
  datatype Engines = Engines(
    regexValid: string -> bool,
    regexMatches: (string, string) -> bool,
    adblockCheck: (set<string>, string) -> BlockerResult,
    netContains: (IpNet, IpAddr) -> bool)

  datatype DomainFilterBuilder = DomainFilterBuilder(
    allowDomains: set<Domain>,
    disallowDomains: set<Domain>,
    allowSubdomains: set<Domain>,
    disallowSubdomains: set<Domain>,
    allowIps: set<IpAddr>,
    disallowIps: set<IpAddr>,
    allowIpNet: set<IpNet>,
    disallowIpNet: set<IpNet>,
    adblock: set<string>,
    allowRegex: set<string>,
    disallowRegex: set<string>)

  /** The frozen snapshot. The subnet lists are vectors in `DomainFilter`, but
      they are only ever searched with `any`, so their order is immaterial
      and they stay sets here. `adblock` stands for the engine compiled from
      those rules, and the regex sets for their compiled `RegexSet`s. */
  datatype DomainFilter = DomainFilter(
    allowDomains: set<Domain>,
    disallowDomains: set<Domain>,
    allowSubdomains: set<Domain>,
    disallowSubdomains: set<Domain>,
    allowIps: set<IpAddr>,
    disallowIps: set<IpAddr>,
    allowIpNet: set<IpNet>,
    disallowIpNet: set<IpNet>,
    adblock: set<string>,
    allowRegex: set<string>,
    disallowRegex: set<string>)

  /** Some rule in `list` names a parent of `d`. */
  ghost predicate HasParentIn(d: Domain, list: set<Domain>) {
    exists p :: p in list && ParentOf(p, d)
  }

  function New(): DomainFilterBuilder {
    DomainFilterBuilder({}, {}, {}, {}, {}, {}, {}, {}, {}, {}, {})
  }

  /** `is_subdomain_of_list`: walks the parents of `d`, nearest first, and
      asks whether the list contains one of them. The domain itself is never
      looked up. */
  function IsSubdomainOfList(d: Domain, list: set<Domain>): (r: bool)
    ensures r <==> HasParentIn(d, list)
    decreases |d|
  {
    if |d| <= 1 then false
    else if d[1..] in list then
      assert ParentOf(d[1..], d);
      true
    else
      var r := IsSubdomainOfList(d[1..], list);
      ParentStep(d);
      r
  }

  /** The parents of a domain are its first suffix and that suffix's parents. */
  lemma ParentStep(d: Domain)
    requires |d| > 1
    ensures forall p :: ParentOf(p, d) <==> p == d[1..] || ParentOf(p, d[1..])
  {
  }

  // -----------------------------------------------------------------------
  // Insertion with precedence

  /** Allowing a domain evicts it from the exact deny set. */
  function AddAllowDomain(b: DomainFilterBuilder, d: Domain): (b': DomainFilterBuilder)
    ensures d in b'.allowDomains && d !in b'.disallowDomains
    ensures b'.allowDomains == b.allowDomains + {d}
    ensures b'.disallowDomains == b.disallowDomains - {d}
    ensures b'.(allowDomains := b.allowDomains, disallowDomains := b.disallowDomains) == b
  {
    b.(disallowDomains := b.disallowDomains - {d}, allowDomains := b.allowDomains + {d})
  }

  /** A domain deny is dropped when the domain is allowed exactly or one of
      its parents is an allowed subdomain; otherwise it is inserted. */
  function AddDisallowDomain(b: DomainFilterBuilder, d: Domain): (b': DomainFilterBuilder)
    ensures d !in b.allowDomains && !HasParentIn(d, b.allowSubdomains) ==>
              b' == b.(disallowDomains := b.disallowDomains + {d})
    ensures d in b.allowDomains || HasParentIn(d, b.allowSubdomains) ==> b' == b
  {
    if d !in b.allowDomains && !IsSubdomainOfList(d, b.allowSubdomains) then
      b.(disallowDomains := b.disallowDomains + {d})
    else
      b
  }

  /** Allowing a subdomain rule evicts the same rule from the deny side. */
  function AddAllowSubdomain(b: DomainFilterBuilder, d: Domain): (b': DomainFilterBuilder)
    ensures d in b'.allowSubdomains && d !in b'.disallowSubdomains
    ensures b'.allowSubdomains == b.allowSubdomains + {d}
    ensures b'.disallowSubdomains == b.disallowSubdomains - {d}
    ensures b'.(allowSubdomains := b.allowSubdomains, disallowSubdomains := b.disallowSubdomains) == b
  {
    b.(disallowSubdomains := b.disallowSubdomains - {d}, allowSubdomains := b.allowSubdomains + {d})
  }

  /** A subdomain deny is dropped only when the very same rule is allowed;
      parents of `d` are not consulted. */
  function AddDisallowSubdomain(b: DomainFilterBuilder, d: Domain): (b': DomainFilterBuilder)
    ensures d !in b.allowSubdomains ==> b' == b.(disallowSubdomains := b.disallowSubdomains + {d})
    ensures d in b.allowSubdomains ==> b' == b
  {
    if d !in b.allowSubdomains then b.(disallowSubdomains := b.disallowSubdomains + {d}) else b
  }

  function AddAllowIpAddr(b: DomainFilterBuilder, ip: IpAddr): (b': DomainFilterBuilder)
    ensures ip in b'.allowIps && ip !in b'.disallowIps
    ensures b'.allowIps == b.allowIps + {ip}
    ensures b'.disallowIps == b.disallowIps - {ip}
    ensures b'.(allowIps := b.allowIps, disallowIps := b.disallowIps) == b
  {
    b.(disallowIps := b.disallowIps - {ip}, allowIps := b.allowIps + {ip})
  }

  /** An IP deny always succeeds, even for an allowed address. */
  function AddDisallowIpAddr(b: DomainFilterBuilder, ip: IpAddr): (b': DomainFilterBuilder)
    ensures ip in b'.disallowIps
    ensures b' == b.(disallowIps := b.disallowIps + {ip})
  {
    b.(disallowIps := b.disallowIps + {ip})
  }

  function AddAllowIpSubnet(b: DomainFilterBuilder, net: IpNet): (b': DomainFilterBuilder)
    ensures net in b'.allowIpNet && net !in b'.disallowIpNet
    ensures b'.allowIpNet == b.allowIpNet + {net}
    ensures b'.disallowIpNet == b.disallowIpNet - {net}
    ensures b'.(allowIpNet := b.allowIpNet, disallowIpNet := b.disallowIpNet) == b
  {
    b.(disallowIpNet := b.disallowIpNet - {net}, allowIpNet := b.allowIpNet + {net})
  }

  /** A subnet deny always succeeds, even for an allowed subnet. */
  function AddDisallowIpSubnet(b: DomainFilterBuilder, net: IpNet): (b': DomainFilterBuilder)
    ensures net in b'.disallowIpNet
    ensures b' == b.(disallowIpNet := b.disallowIpNet + {net})
  {
    b.(disallowIpNet := b.disallowIpNet + {net})
  }

  function AddAdblockRule(b: DomainFilterBuilder, rule: string): (b': DomainFilterBuilder)
    ensures rule in b'.adblock
    ensures b' == b.(adblock := b.adblock + {rule})
  {
    b.(adblock := b.adblock + {rule})
  }

  /** A pattern is kept only if it compiles; an invalid one is dropped silently. */
  function AddAllowRegex(e: Engines, b: DomainFilterBuilder, re: string): (b': DomainFilterBuilder)
    ensures re in b'.allowRegex <==> re in b.allowRegex || e.regexValid(re)
    ensures e.regexValid(re) ==> b' == b.(allowRegex := b.allowRegex + {re})
    ensures !e.regexValid(re) ==> b' == b
  {
    if e.regexValid(re) then b.(allowRegex := b.allowRegex + {re}) else b
  }

  function AddDisallowRegex(e: Engines, b: DomainFilterBuilder, re: string): (b': DomainFilterBuilder)
    ensures re in b'.disallowRegex <==> re in b.disallowRegex || e.regexValid(re)
    ensures e.regexValid(re) ==> b' == b.(disallowRegex := b.disallowRegex + {re})
    ensures !e.regexValid(re) ==> b' == b
  {
    if e.regexValid(re) then b.(disallowRegex := b.disallowRegex + {re}) else b
  }

  // -----------------------------------------------------------------------
  // Freezing

  /** `RegexSet::new(patterns)`: compiles exactly when every pattern does. */
  function NewRegexSet(e: Engines, patterns: set<string>): (r: Result<set<string>>)
    ensures r.Ok? <==> forall p :: p in patterns ==> e.regexValid(p)
    ensures r.Ok? ==> r.value == patterns
  {
    if forall p | p in patterns :: e.regexValid(p) then Ok(patterns) else Err
  }

  /** `to_domain_filter`: copies every rule set. Both regex sets are
      `unwrap`ped, so the call is defined only when both compile. */
  function ToDomainFilter(e: Engines, b: DomainFilterBuilder): (f: DomainFilter)
    requires NewRegexSet(e, b.allowRegex).Ok? && NewRegexSet(e, b.disallowRegex).Ok?
    ensures f.allowDomains == b.allowDomains && f.disallowDomains == b.disallowDomains
    ensures f.allowSubdomains == b.allowSubdomains && f.disallowSubdomains == b.disallowSubdomains
    ensures f.allowIps == b.allowIps && f.disallowIps == b.disallowIps
    ensures f.allowIpNet == b.allowIpNet && f.disallowIpNet == b.disallowIpNet
    ensures f.adblock == b.adblock
    ensures f.allowRegex == b.allowRegex && f.disallowRegex == b.disallowRegex
  {
    DomainFilter(
      b.allowDomains, b.disallowDomains,
      b.allowSubdomains, b.disallowSubdomains,
      b.allowIps, b.disallowIps,
      b.allowIpNet, b.disallowIpNet,
      b.adblock,
      NewRegexSet(e, b.allowRegex).value,
      NewRegexSet(e, b.disallowRegex).value)
  }

  // -----------------------------------------------------------------------
  // Decisions

  /** `RegexSet::is_match`: some pattern of the set matches. */
  function RegexSetIsMatch(e: Engines, patterns: set<string>, text: string): bool {
    exists p | p in patterns :: e.regexMatches(p, text)
  }

  /** The URL the ad-block engine is asked about: `https://` and the domain. */
  function Url(d: Domain): string {
    "https://" + DomainText(d)
  }

  /** Any allow condition: exact, a parent, or an allow pattern. */
  ghost predicate AllowCondition(e: Engines, f: DomainFilter, d: Domain) {
    || d in f.allowDomains
    || HasParentIn(d, f.allowSubdomains)
    || exists p :: p in f.allowRegex && e.regexMatches(p, DomainText(d))
  }

  ghost predicate AdblockException(e: Engines, f: DomainFilter, d: Domain) {
    e.adblockCheck(f.adblock, Url(d)).exception
  }

  /** Any deny condition: an ad-block match, exact, a parent, or a deny pattern. */
  ghost predicate DenyCondition(e: Engines, f: DomainFilter, d: Domain) {
    || e.adblockCheck(f.adblock, Url(d)).matched
    || d in f.disallowDomains
    || HasParentIn(d, f.disallowSubdomains)
    || exists p :: p in f.disallowRegex && e.regexMatches(p, DomainText(d))
  }

  /** `domain_is_allowed`: allow conditions first, then an ad-block
      exception, then deny conditions; unknown when none applies. */
  function DomainIsAllowed(e: Engines, f: DomainFilter, d: Domain): (r: Option<bool>)
    ensures AllowCondition(e, f, d) ==> r == Some(true)
    ensures r == Some(true) <==> AllowCondition(e, f, d) || AdblockException(e, f, d)
    ensures r == Some(false) <==>
              !AllowCondition(e, f, d) && !AdblockException(e, f, d) && DenyCondition(e, f, d)
    ensures r == None <==>
              !AllowCondition(e, f, d) && !AdblockException(e, f, d) && !DenyCondition(e, f, d)
  {
    if || d in f.allowDomains
       || IsSubdomainOfList(d, f.allowSubdomains)
       || RegexSetIsMatch(e, f.allowRegex, DomainText(d))
    then
      Some(true)
    else
      var blockerResult := e.adblockCheck(f.adblock, Url(d));
      if blockerResult.exception then
        Some(true)
      else if || blockerResult.matched
              || d in f.disallowDomains
              || IsSubdomainOfList(d, f.disallowSubdomains)
              || RegexSetIsMatch(e, f.disallowRegex, DomainText(d))
      then
        Some(false)
      else
        None
  }

  ghost predicate IpAllowCondition(e: Engines, f: DomainFilter, ip: IpAddr) {
    ip in f.allowIps || exists n :: n in f.allowIpNet && e.netContains(n, ip)
  }

  ghost predicate IpDenyCondition(e: Engines, f: DomainFilter, ip: IpAddr) {
    ip in f.disallowIps || exists n :: n in f.disallowIpNet && e.netContains(n, ip)
  }

  /** `ip_is_allowed`: exact or subnet allow first, then exact or subnet deny. */
  function IpIsAllowed(e: Engines, f: DomainFilter, ip: IpAddr): (r: Option<bool>)
    ensures r == Some(true) <==> IpAllowCondition(e, f, ip)
    ensures r == Some(false) <==> !IpAllowCondition(e, f, ip) && IpDenyCondition(e, f, ip)
    ensures r == None <==> !IpAllowCondition(e, f, ip) && !IpDenyCondition(e, f, ip)
  {
    if ip in f.allowIps || exists n | n in f.allowIpNet :: e.netContains(n, ip) then
      Some(true)
    else if ip in f.disallowIps || exists n | n in f.disallowIpNet :: e.netContains(n, ip) then
      Some(false)
    else
      None
  }

  /** `cnames.iter().any(|c| domain_is_allowed(c) == Some(false))`. */
  function AnyCnameBlocked(e: Engines, f: DomainFilter, cnames: seq<Domain>): (r: bool)
    ensures r <==> exists i :: 0 <= i < |cnames| && DomainIsAllowed(e, f, cnames[i]) == Some(false)
  {
    if |cnames| == 0 then false
    else if DomainIsAllowed(e, f, cnames[0]) == Some(false) then true
    else
      var r := AnyCnameBlocked(e, f, cnames[1..]);
      assert forall i :: 1 <= i < |cnames| ==> cnames[i] == cnames[1..][i - 1];
      r
  }

  /** `ips.iter().any(|ip| ip_is_allowed(ip) == Some(false))`. */
  function AnyIpBlocked(e: Engines, f: DomainFilter, ips: seq<IpAddr>): (r: bool)
    ensures r <==> exists i :: 0 <= i < |ips| && IpIsAllowed(e, f, ips[i]) == Some(false)
  {
    if |ips| == 0 then false
    else if IpIsAllowed(e, f, ips[0]) == Some(false) then true
    else
      var r := AnyIpBlocked(e, f, ips[1..]);
      assert forall i :: 1 <= i < |ips| ==> ips[i] == ips[1..][i - 1];
      r
  }

  /** `allowed`: the domain's own verdict when it has one; otherwise blocked
      when a CNAME or an IP is blocked; otherwise unknown. CNAMEs and IPs can
      only push an unknown domain to blocked, never to allowed. */
  function Allowed(e: Engines, f: DomainFilter, d: Domain, cnames: seq<Domain>, ips: seq<IpAddr>): (r: Option<bool>)
    ensures DomainIsAllowed(e, f, d).Some? ==> r == DomainIsAllowed(e, f, d)
    ensures DomainIsAllowed(e, f, d).None? ==>
              (r == Some(false) <==>
                 || (exists i :: 0 <= i < |cnames| && DomainIsAllowed(e, f, cnames[i]) == Some(false))
                 || (exists i :: 0 <= i < |ips| && IpIsAllowed(e, f, ips[i]) == Some(false)))
    ensures r == Some(true) ==> DomainIsAllowed(e, f, d) == Some(true)
  {
    var own := DomainIsAllowed(e, f, d);
    if own.Some? then own
    else if AnyCnameBlocked(e, f, cnames) then Some(false)
    else if AnyIpBlocked(e, f, ips) then Some(false)
    else None
  }
}
