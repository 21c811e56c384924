/** Properties of the rule builder and of the verdicts of the filter it
    freezes into: invariants kept by every sequence of insertions, the
    effect of each insertion on the verdicts, and the scenarios
    blockconvert's unit tests pin down. */
module FilterProperties {
  import opened Results
  import opened Names
  import opened Filter

  /** One call on the builder. */
  datatype Op =
    | AllowDomain(d: Domain)
    | DisallowDomain(d: Domain)
    | AllowSubdomain(d: Domain)
    | DisallowSubdomain(d: Domain)
    | AllowIpAddr(ip: IpAddr)
    | DisallowIpAddr(ip: IpAddr)
    | AllowIpSubnet(net: IpNet)
    | DisallowIpSubnet(net: IpNet)
    | AdblockRule(rule: string)
    | AllowRegex(re: string)
    | DisallowRegex(re: string)

  function Apply(e: Engines, b: DomainFilterBuilder, op: Op): DomainFilterBuilder {
    match op
    case AllowDomain(d) => AddAllowDomain(b, d)
    case DisallowDomain(d) => AddDisallowDomain(b, d)
    case AllowSubdomain(d) => AddAllowSubdomain(b, d)
    case DisallowSubdomain(d) => AddDisallowSubdomain(b, d)
    case AllowIpAddr(ip) => AddAllowIpAddr(b, ip)
    case DisallowIpAddr(ip) => AddDisallowIpAddr(b, ip)
    case AllowIpSubnet(net) => AddAllowIpSubnet(b, net)
    case DisallowIpSubnet(net) => AddDisallowIpSubnet(b, net)
    case AdblockRule(rule) => AddAdblockRule(b, rule)
    case AllowRegex(re) => AddAllowRegex(e, b, re)
    case DisallowRegex(re) => AddDisallowRegex(e, b, re)
  }

  /** The builder after the calls in `ops`, in order, starting from `b`. */
  function Run(e: Engines, b: DomainFilterBuilder, ops: seq<Op>): DomainFilterBuilder
    decreases |ops|
  {
    if |ops| == 0 then b else Run(e, Apply(e, b, ops[0]), ops[1..])
  }

  /** The builder after `new()` followed by the calls in `ops`. */
  function Build(e: Engines, ops: seq<Op>): DomainFilterBuilder {
    Run(e, New(), ops)
  }

  lemma RunOne(e: Engines, b: DomainFilterBuilder, op: Op)
    ensures Run(e, b, [op]) == Apply(e, b, op)
  {
  }

  lemma RunTwo(e: Engines, b: DomainFilterBuilder, op1: Op, op2: Op)
    ensures Run(e, b, [op1, op2]) == Apply(e, Apply(e, b, op1), op2)
  {
    assert [op1, op2][1..] == [op2];
    RunOne(e, Apply(e, b, op1), op2);
  }

  lemma RunThree(e: Engines, b: DomainFilterBuilder, op1: Op, op2: Op, op3: Op)
    ensures Run(e, b, [op1, op2, op3]) == Apply(e, Apply(e, Apply(e, b, op1), op2), op3)
  {
    assert [op1, op2, op3][1..] == [op2, op3];
    RunTwo(e, Apply(e, b, op1), op2, op3);
  }

  /** Every stored pattern compiles, so both `RegexSet::new` calls succeed. */
  ghost predicate Compiles(e: Engines, b: DomainFilterBuilder) {
    NewRegexSet(e, b.allowRegex).Ok? && NewRegexSet(e, b.disallowRegex).Ok?
  }

  /** What the builder maintains: the exact and the subdomain pairs are
      disjoint, and every stored pattern compiles. */
  ghost predicate Consistent(e: Engines, b: DomainFilterBuilder) {
    && b.allowDomains !! b.disallowDomains
    && b.allowSubdomains !! b.disallowSubdomains
    && Compiles(e, b)
  }

  lemma ApplyKeepsConsistent(e: Engines, b: DomainFilterBuilder, op: Op)
    requires Consistent(e, b)
    ensures Consistent(e, Apply(e, b, op))
  {
  }

  /** A consistent builder stays consistent through any sequence of calls. */
  lemma {:induction false} RunKeepsConsistent(e: Engines, b: DomainFilterBuilder, ops: seq<Op>)
    requires Consistent(e, b)
    ensures Consistent(e, Run(e, b, ops))
    decreases |ops|
  {
    if |ops| > 0 {
      ApplyKeepsConsistent(e, b, ops[0]);
      RunKeepsConsistent(e, Apply(e, b, ops[0]), ops[1..]);
    }
  }

  /** The `unwrap`s in `to_domain_filter` never fail on a built builder, and
      no domain is both allowed and denied exactly, or as a subdomain rule. */
  lemma BuiltBuilderFreezes(e: Engines, ops: seq<Op>, d: Domain)
    ensures NewRegexSet(e, Build(e, ops).allowRegex).Ok?
    ensures NewRegexSet(e, Build(e, ops).disallowRegex).Ok?
    ensures !(d in Build(e, ops).allowDomains && d in Build(e, ops).disallowDomains)
    ensures !(d in Build(e, ops).allowSubdomains && d in Build(e, ops).disallowSubdomains)
  {
    RunKeepsConsistent(e, New(), ops);
  }

  /** IP rules are not kept disjoint: a deny after an allow keeps both. */
  lemma IpRulesMayOverlap(e: Engines, ip: IpAddr, net: IpNet)
    ensures var b := Build(e, [AllowIpAddr(ip), DisallowIpAddr(ip)]);
            ip in b.allowIps && ip in b.disallowIps
    ensures var b := Build(e, [AllowIpSubnet(net), DisallowIpSubnet(net)]);
            net in b.allowIpNet && net in b.disallowIpNet
  {
    RunTwo(e, New(), AllowIpAddr(ip), DisallowIpAddr(ip));
    RunTwo(e, New(), AllowIpSubnet(net), DisallowIpSubnet(net));
  }

  /** The builder's precedence depends on insertion order: an exact deny
      inserted before its parent is allowed as a subdomain stays stored,
      while the reverse order drops it. */
  lemma InsertionOrderMatters(e: Engines, parent: Domain, child: Domain)
    requires ParentOf(parent, child)
    ensures child in Build(e, [DisallowDomain(child), AllowSubdomain(parent)]).disallowDomains
    ensures child !in Build(e, [AllowSubdomain(parent), DisallowDomain(child)]).disallowDomains
  {
    RunTwo(e, New(), DisallowDomain(child), AllowSubdomain(parent));
    RunTwo(e, New(), AllowSubdomain(parent), DisallowDomain(child));
    var first := AddAllowSubdomain(New(), parent);
    assert HasParentIn(child, first.allowSubdomains);
  }

  // -----------------------------------------------------------------------
  // Effect of each insertion on the verdicts

  /** The verdict for `d` of the filter frozen from `b`. */
  function Verdict(e: Engines, b: DomainFilterBuilder, d: Domain): Option<bool>
    requires Compiles(e, b)
  {
    DomainIsAllowed(e, ToDomainFilter(e, b), d)
  }

  function IpVerdict(e: Engines, b: DomainFilterBuilder, ip: IpAddr): Option<bool>
    requires Compiles(e, b)
  {
    IpIsAllowed(e, ToDomainFilter(e, b), ip)
  }

  /** A deny rule turns a verdict to blocked unless it was already allowed. */
  function DenyOver(v: Option<bool>): Option<bool> {
    if v == Some(true) then Some(true) else Some(false)
  }

  lemma AllowDomainEffect(e: Engines, b: DomainFilterBuilder, x: Domain, y: Domain)
    requires Compiles(e, b)
    ensures Compiles(e, AddAllowDomain(b, x))
    ensures Verdict(e, AddAllowDomain(b, x), x) == Some(true)
    ensures y != x ==> Verdict(e, AddAllowDomain(b, x), y) == Verdict(e, b, y)
  {
  }

  lemma DisallowDomainEffect(e: Engines, b: DomainFilterBuilder, x: Domain, y: Domain)
    requires Compiles(e, b)
    ensures Compiles(e, AddDisallowDomain(b, x))
    ensures Verdict(e, AddDisallowDomain(b, x), x) == DenyOver(Verdict(e, b, x))
    ensures y != x ==> Verdict(e, AddDisallowDomain(b, x), y) == Verdict(e, b, y)
  {
  }

  lemma AllowSubdomainEffect(e: Engines, b: DomainFilterBuilder, x: Domain, y: Domain)
    requires Compiles(e, b)
    ensures Compiles(e, AddAllowSubdomain(b, x))
    ensures ParentOf(x, y) ==> Verdict(e, AddAllowSubdomain(b, x), y) == Some(true)
    ensures !ParentOf(x, y) ==> Verdict(e, AddAllowSubdomain(b, x), y) == Verdict(e, b, y)
  {
  }

  lemma DisallowSubdomainEffect(e: Engines, b: DomainFilterBuilder, x: Domain, y: Domain)
    requires Compiles(e, b)
    ensures Compiles(e, AddDisallowSubdomain(b, x))
    ensures ParentOf(x, y) ==> Verdict(e, AddDisallowSubdomain(b, x), y) == DenyOver(Verdict(e, b, y))
    ensures !ParentOf(x, y) ==> Verdict(e, AddDisallowSubdomain(b, x), y) == Verdict(e, b, y)
  {
  }

  lemma AllowIpAddrEffect(e: Engines, b: DomainFilterBuilder, x: IpAddr, y: IpAddr)
    requires Compiles(e, b)
    ensures Compiles(e, AddAllowIpAddr(b, x))
    ensures IpVerdict(e, AddAllowIpAddr(b, x), x) == Some(true)
    ensures y != x ==> IpVerdict(e, AddAllowIpAddr(b, x), y) == IpVerdict(e, b, y)
  {
  }

  /** An IP deny always lands in the deny set, yet the verdict of an
      already-allowed address stays allowed: allow is checked first. */
  lemma DisallowIpAddrEffect(e: Engines, b: DomainFilterBuilder, x: IpAddr, y: IpAddr)
    requires Compiles(e, b)
    ensures Compiles(e, AddDisallowIpAddr(b, x))
    ensures IpVerdict(e, AddDisallowIpAddr(b, x), x) == DenyOver(IpVerdict(e, b, x))
    ensures y != x ==> IpVerdict(e, AddDisallowIpAddr(b, x), y) == IpVerdict(e, b, y)
  {
  }

  lemma AllowIpSubnetEffect(e: Engines, b: DomainFilterBuilder, net: IpNet, ip: IpAddr)
    requires Compiles(e, b)
    ensures Compiles(e, AddAllowIpSubnet(b, net))
    ensures e.netContains(net, ip) ==> IpVerdict(e, AddAllowIpSubnet(b, net), ip) == Some(true)
    ensures !e.netContains(net, ip) ==> IpVerdict(e, AddAllowIpSubnet(b, net), ip) == IpVerdict(e, b, ip)
  {
  }

  lemma DisallowIpSubnetEffect(e: Engines, b: DomainFilterBuilder, net: IpNet, ip: IpAddr)
    requires Compiles(e, b)
    ensures Compiles(e, AddDisallowIpSubnet(b, net))
    ensures e.netContains(net, ip) ==>
              IpVerdict(e, AddDisallowIpSubnet(b, net), ip) == DenyOver(IpVerdict(e, b, ip))
    ensures !e.netContains(net, ip) ==>
              IpVerdict(e, AddDisallowIpSubnet(b, net), ip) == IpVerdict(e, b, ip)
  {
  }

  lemma AllowRegexEffect(e: Engines, b: DomainFilterBuilder, re: string, d: Domain)
    requires Compiles(e, b)
    ensures Compiles(e, AddAllowRegex(e, b, re))
    ensures e.regexValid(re) && e.regexMatches(re, DomainText(d)) ==>
              Verdict(e, AddAllowRegex(e, b, re), d) == Some(true)
    ensures !(e.regexValid(re) && e.regexMatches(re, DomainText(d))) ==>
              Verdict(e, AddAllowRegex(e, b, re), d) == Verdict(e, b, d)
  {
  }

  lemma DisallowRegexEffect(e: Engines, b: DomainFilterBuilder, re: string, d: Domain)
    requires Compiles(e, b)
    ensures Compiles(e, AddDisallowRegex(e, b, re))
    ensures e.regexValid(re) && e.regexMatches(re, DomainText(d)) ==>
              Verdict(e, AddDisallowRegex(e, b, re), d) == DenyOver(Verdict(e, b, d))
    ensures !(e.regexValid(re) && e.regexMatches(re, DomainText(d))) ==>
              Verdict(e, AddDisallowRegex(e, b, re), d) == Verdict(e, b, d)
  {
  }

  // -----------------------------------------------------------------------
  // Scenarios of blockconvert's unit tests. The engines stay abstract: each
  // scenario states what it needs of them, such as "`.` compiles and
  // matches the domain's text" or "the ad-block engine reports nothing".

  /** The ad-block engine compiled from `rules` reports nothing for `d`. */
  ghost predicate AdblockSilent(e: Engines, rules: set<string>, d: Domain) {
    e.adblockCheck(rules, Url(d)) == BlockerResult(false, false)
  }

  /** The pattern `re` compiles and matches the text of `d`. */
  ghost predicate PatternHits(e: Engines, re: string, d: Domain) {
    e.regexValid(re) && e.regexMatches(re, DomainText(d))
  }

  /** An empty builder knows nothing about any domain. */
  lemma DefaultUnblocked(e: Engines, d: Domain)
    requires AdblockSilent(e, {}, d)
    ensures Compiles(e, New())
    ensures Verdict(e, New(), d) == None
  {
  }

  lemma RegexDisallowAllBlocksDomain(e: Engines, d: Domain)
    requires PatternHits(e, ".", d)
    requires !e.adblockCheck({}, Url(d)).exception
    ensures Compiles(e, Build(e, [DisallowRegex(".")]))
    ensures Verdict(e, Build(e, [DisallowRegex(".")]), d) == Some(false)
  {
  }

  lemma RegexAllowOverrulesRegexDisallow(e: Engines, d: Domain)
    requires PatternHits(e, ".", d)
    ensures Compiles(e, Build(e, [DisallowRegex("."), AllowRegex(".")]))
    ensures Verdict(e, Build(e, [DisallowRegex("."), AllowRegex(".")]), d) == Some(true)
  {
  }

  lemma AdblockCanBlockDomain(e: Engines, d: Domain, rule: string)
    requires e.adblockCheck({rule}, Url(d)) == BlockerResult(true, false)
    ensures Compiles(e, Build(e, [AdblockRule(rule)]))
    ensures Verdict(e, Build(e, [AdblockRule(rule)]), d) == Some(false)
  {
    RunOne(e, New(), AdblockRule(rule));
    assert AddAdblockRule(New(), rule).adblock == {rule};
  }

  /** An ad-block exception allows a domain that a deny pattern matches. */
  lemma AdblockCanWhitelistBlockedDomain(e: Engines, d: Domain, block: string, exception: string)
    requires PatternHits(e, ".", d)
    requires e.adblockCheck({block, exception}, Url(d)).exception
    ensures Compiles(e, Build(e, [DisallowRegex("."), AdblockRule(block), AdblockRule(exception)]))
    ensures Verdict(e, Build(e, [DisallowRegex("."), AdblockRule(block), AdblockRule(exception)]), d)
            == Some(true)
  {
    RunThree(e, New(), DisallowRegex("."), AdblockRule(block), AdblockRule(exception));
    assert Build(e, [DisallowRegex("."), AdblockRule(block), AdblockRule(exception)]).adblock
           == {block, exception};
  }

  /** A subdomain deny for `example.com` blocks `www.example.com` but leaves
      `example.com` itself unknown. */
  lemma SubdomainDisallowBlocksOnlyStrictSubdomains(e: Engines)
    requires AdblockSilent(e, {}, ["www", "example", "com"])
    requires AdblockSilent(e, {}, ["example", "com"])
    ensures Compiles(e, Build(e, [DisallowSubdomain(["example", "com"])]))
    ensures Verdict(e, Build(e, [DisallowSubdomain(["example", "com"])]), ["www", "example", "com"])
            == Some(false)
    ensures Verdict(e, Build(e, [DisallowSubdomain(["example", "com"])]), ["example", "com"])
            == None
  {
  }

  /** An allowed subdomain overrides a deny pattern matching everything. */
  lemma SubdomainAllowWhitelistsDomains(e: Engines)
    requires PatternHits(e, ".", ["www", "example", "com"])
    ensures Compiles(e, Build(e, [DisallowRegex("."), AllowSubdomain(["example", "com"])]))
    ensures Verdict(e, Build(e, [DisallowRegex("."), AllowSubdomain(["example", "com"])]),
                    ["www", "example", "com"]) == Some(true)
  {
  }

  /** The filter frozen from `b`, judging a domain with its CNAMEs and IPs. */
  function CombinedVerdict(e: Engines, b: DomainFilterBuilder, d: Domain, cnames: seq<Domain>, ips: seq<IpAddr>): Option<bool>
    requires Compiles(e, b)
  {
    Allowed(e, ToDomainFilter(e, b), d, cnames, ips)
  }

  lemma BlockedCnameBlocksBase(e: Engines)
    requires AdblockSilent(e, {}, ["example", "com"])
    requires !e.adblockCheck({}, Url(["tracker", "com"])).exception
    ensures Compiles(e, Build(e, [DisallowDomain(["tracker", "com"])]))
    ensures CombinedVerdict(e, Build(e, [DisallowDomain(["tracker", "com"])]),
                            ["example", "com"], [["tracker", "com"]], []) == Some(false)
  {
  }

  lemma BlockedIpBlocksBase(e: Engines, ip: IpAddr)
    requires AdblockSilent(e, {}, ["example", "com"])
    ensures Compiles(e, Build(e, [DisallowIpAddr(ip)]))
    ensures CombinedVerdict(e, Build(e, [DisallowIpAddr(ip)]), ["example", "com"], [], [ip])
            == Some(false)
  {
    RunOne(e, New(), DisallowIpAddr(ip));
    var f := ToDomainFilter(e, Build(e, [DisallowIpAddr(ip)]));
    assert IpIsAllowed(e, f, [ip][0]) == Some(false);
  }

  /** An allowed IP never overrides a domain that is itself blocked. */
  lemma IgnoresAllowedIps(e: Engines, ip: IpAddr)
    requires !e.adblockCheck({}, Url(["example", "com"])).exception
    ensures Compiles(e, Build(e, [DisallowDomain(["example", "com"]), AllowIpAddr(ip)]))
    ensures CombinedVerdict(e, Build(e, [DisallowDomain(["example", "com"]), AllowIpAddr(ip)]),
                            ["example", "com"], [], [ip]) == Some(false)
  {
    RunTwo(e, New(), DisallowDomain(["example", "com"]), AllowIpAddr(ip));
  }

  /** An allowed IP never turns an unknown domain into an allowed one. */
  lemma UnblockedIpsDoNotAllow(e: Engines, ip: IpAddr)
    requires AdblockSilent(e, {}, ["example", "com"])
    ensures Compiles(e, Build(e, [AllowIpAddr(ip)]))
    ensures CombinedVerdict(e, Build(e, [AllowIpAddr(ip)]), ["example", "com"], [], [ip]) == None
  {
    RunOne(e, New(), AllowIpAddr(ip));
    var f := ToDomainFilter(e, Build(e, [AllowIpAddr(ip)]));
    assert IpIsAllowed(e, f, [ip][0]) == Some(true);
  }
}
