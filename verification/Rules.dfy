/** The rule manager: blocking lists, wildcard matching of domains, and the order in which a packet is checked. */
module Rules {
  import opened Types
  import opened Text
  import opened IpText
  import opened AppNames

  // ---------------------------------------------------------------- the rules as a value

  datatype RuleSet = RuleSet(
    ips: set<uint32>, apps: set<AppType>, domains: set<string>, patterns: seq<string>, ports: set<uint16>)

  const NO_RULES := RuleSet({}, {}, {}, [], {})

  predicate AllStarred(patterns: seq<string>) {
    forall i :: 0 <= i < |patterns| ==> '*' in patterns[i]
  }

  /** Entries with a star are patterns, all others exact domains. */
  predicate Sorted(r: RuleSet) {
    && (forall d :: d in r.domains ==> '*' !in d)
    && AllStarred(r.patterns)
  }

  function WithDomain(r: RuleSet, domain: string): RuleSet {
    if '*' in domain then r.(patterns := r.patterns + [domain]) else r.(domains := r.domains + {domain})
  }

  function WithoutFirst(s: seq<string>, x: string): seq<string> {
    if s == [] then [] else if s[0] == x then s[1..] else [s[0]] + WithoutFirst(s[1..], x)
  }

  function WithoutDomain(r: RuleSet, domain: string): RuleSet {
    if '*' in domain then r.(patterns := WithoutFirst(r.patterns, domain)) else r.(domains := r.domains - {domain})
  }

  lemma DomainsStaySorted(r: RuleSet, domain: string)
    requires Sorted(r)
    ensures Sorted(WithDomain(r, domain)) && Sorted(WithoutDomain(r, domain))
  {
    PatternsStaySorted(r.patterns, domain);
  }

  lemma {:induction false} PatternsStaySorted(patterns: seq<string>, x: string)
    requires AllStarred(patterns)
    ensures AllStarred(WithoutFirst(patterns, x))
  {
    if patterns != [] && patterns[0] != x {
      PatternsStaySorted(patterns[1..], x);
    }
  }

  lemma {:induction false} WithoutFirstKeeps(s: seq<string>, x: string)
    ensures multiset(WithoutFirst(s, x)) == multiset(s) - multiset{x}
  {
    if s != [] {
      assert s == [s[0]] + s[1..];
      if s[0] != x {
        WithoutFirstKeeps(s[1..], x);
      }
    }
  }

  /** Everything after the first `x` is `x` again. */
  predicate OnlyAfterFirst(s: seq<string>, x: string) {
    forall i, j :: 0 <= i <= j < |s| && s[i] == x ==> s[j] == x
  }

  lemma {:induction false} ShiftedIsConstant(s: seq<string>, x: string, i: nat)
    requires i < |s| && s == s[1..] + [x]
    ensures s[i] == x
    decreases |s| - i
  {
    assert s[i] == (s[1..] + [x])[i];
    if i + 1 < |s| {
      ShiftedIsConstant(s, x, i + 1);
    }
  }

  lemma {:induction false} WithoutFirstOfAppended(s: seq<string>, x: string)
    ensures WithoutFirst(s + [x], x) == s <==> OnlyAfterFirst(s, x)
  {
    if s == [] {
      assert s + [x] == [x];
    } else {
      assert (s + [x])[1..] == s[1..] + [x];
      if s[0] != x {
        WithoutFirstOfAppended(s[1..], x);
        assert s == [s[0]] + s[1..];
        forall i, j | 0 <= i <= j < |s| && s[i] == x && OnlyAfterFirst(s[1..], x) ensures s[j] == x {
          assert s[1..][i - 1] == x;
        }
        forall i, j | 0 <= i <= j < |s[1..]| && s[1..][i] == x && OnlyAfterFirst(s, x) ensures s[1..][j] == x {
          assert s[i + 1] == x;
        }
      } else {
        if s[1..] + [x] == s {
          forall j | 0 <= j < |s| ensures s[j] == x {
            ShiftedIsConstant(s, x, j);
          }
        }
        if OnlyAfterFirst(s, x) {
          assert forall j :: 0 <= j < |s| ==> s[0] == x && s[j] == x;
          assert s[1..] + [x] == s;
        }
      }
    }
  }

  /** Unblocking undoes blocking exactly when the entry was not there, or its removal leaves the same order of patterns. */
  lemma UnblockUndoesBlock(r: RuleSet, domain: string)
    ensures WithoutDomain(WithDomain(r, domain), domain) == r <==>
      if '*' in domain then OnlyAfterFirst(r.patterns, domain) else domain !in r.domains
    ensures '*' in domain ==> multiset(WithoutDomain(WithDomain(r, domain), domain).patterns) == multiset(r.patterns)
  {
    WithoutFirstKeeps(r.patterns + [domain], domain);
    WithoutFirstOfAppended(r.patterns, domain);
    assert multiset(r.patterns + [domain]) == multiset(r.patterns) + multiset{domain};
  }

  // ---------------------------------------------------------------- domain patterns

  predicate EndsWith(s: string, end: string) {
    |s| >= |end| && s[|s| - |end|..] == end
  }

  predicate DomainMatchesPattern(domain: string, pattern: string) {
    && |pattern| >= 2 && pattern[0] == '*' && pattern[1] == '.'
    && (EndsWith(domain, pattern[1..]) || domain == pattern[2..])
  }

  function Labels(domain: string): (labels: seq<string>)
    ensures |labels| >= 1
  {
    Split(domain, '.')
  }

  predicate LabelSuffix(end: seq<string>, labels: seq<string>) {
    |end| <= |labels| && labels[|labels| - |end|..] == end
  }

  lemma EndMeansSuffix(front: string, s: string)
    ensures LabelSuffix(Labels(s), Labels(front + "." + s))
  {
    SplitAtSeparator(front, s, '.');
  }

  lemma SuffixMeansEnd(domain: string, s: string)
    requires LabelSuffix(Labels(s), Labels(domain))
    ensures domain == s || EndsWith(domain, "." + s)
  {
    var front := Labels(domain)[..|Labels(domain)| - |Labels(s)|];
    assert Labels(domain) == front + Labels(s);
    JoinSplit(domain, '.');
    JoinSplit(s, '.');
    if front == [] {
      assert Labels(domain) == Labels(s);
    } else {
      JoinAppend(front, Labels(s), '.');
      assert domain == Join(front, '.') + ("." + s);
    }
  }

  /** Comparing the ends of the strings is comparing labels. */
  lemma MatchIsLabelSuffix(domain: string, s: string)
    ensures DomainMatchesPattern(domain, "*." + s) <==> LabelSuffix(Labels(s), Labels(domain))
  {
    var pattern := "*." + s;
    assert pattern[1..] == "." + s && pattern[2..] == s;
    if EndsWith(domain, "." + s) {
      var front := domain[..|domain| - |s| - 1];
      assert domain == front + "." + s;
      EndMeansSuffix(front, s);
    }
    if LabelSuffix(Labels(s), Labels(domain)) {
      SuffixMeansEnd(domain, s);
    }
  }

  predicate IsDomainBlocked(r: RuleSet, domain: string) {
    domain in r.domains || exists i :: 0 <= i < |r.patterns| && DomainMatchesPattern(Lower(domain), Lower(r.patterns[i]))
  }

  /** Pattern number `i` is a star, a dot and a name whose labels end the domain's, letter case aside. */
  ghost predicate PatternCovers(r: RuleSet, i: nat, domain: string)
    requires i < |r.patterns|
  {
    exists s :: r.patterns[i] == "*." + s && LabelSuffix(Labels(Lower(s)), Labels(Lower(domain)))
  }

  lemma LowerPattern(pattern: string)
    requires |pattern| >= 2
    ensures Lower(pattern)[0] == '*' <==> pattern[0] == '*'
    ensures Lower(pattern)[1] == '.' <==> pattern[1] == '.'
    ensures pattern[0] == '*' && pattern[1] == '.' ==> pattern == "*." + pattern[2..] && Lower(pattern) == "*." + Lower(pattern[2..])
  {
  }

  lemma MatchIsCover(r: RuleSet, i: nat, domain: string)
    requires i < |r.patterns|
    ensures DomainMatchesPattern(Lower(domain), Lower(r.patterns[i])) <==> PatternCovers(r, i, domain)
  {
    var pattern := r.patterns[i];
    if |pattern| >= 2 {
      LowerPattern(pattern);
      var s := pattern[2..];
      MatchIsLabelSuffix(Lower(domain), Lower(s));
      forall t | pattern == "*." + t ensures t == s {
      }
    }
  }

  /**
   A domain is blocked if and only if it is listed as it is written, or the labels of some pattern
   end its own. So exact entries heed letter case and patterns do not, and a pattern that does not
   begin with star and dot never matches.
   */
  lemma BlockedIffListedOrCovered(r: RuleSet, domain: string)
    ensures IsDomainBlocked(r, domain) <==> domain in r.domains || exists i :: 0 <= i < |r.patterns| && PatternCovers(r, i, domain)
  {
    forall i | 0 <= i < |r.patterns| ensures DomainMatchesPattern(Lower(domain), Lower(r.patterns[i])) <==> PatternCovers(r, i, domain) {
      MatchIsCover(r, i, domain);
    }
  }

  lemma LowerAppend(a: string, b: string)
    ensures Lower(a + b) == Lower(a) + Lower(b)
  {
  }

  /** What a pattern blocks it blocks with all subdomains. */
  lemma SubdomainsAreBlocked(r: RuleSet, i: nat, domain: string, prefix: string)
    requires i < |r.patterns| && PatternCovers(r, i, domain)
    ensures PatternCovers(r, i, prefix + "." + domain) && IsDomainBlocked(r, prefix + "." + domain)
  {
    var s :| r.patterns[i] == "*." + s && LabelSuffix(Labels(Lower(s)), Labels(Lower(domain)));
    LowerAppend(prefix + ".", domain);
    LowerAppend(prefix, ".");
    SplitAtSeparator(Lower(prefix), Lower(domain), '.');
    var labels, end := Labels(Lower(prefix + "." + domain)), Labels(Lower(s));
    assert Lower(".") == ".";
    assert labels == Labels(Lower(prefix)) + Labels(Lower(domain));
    assert labels[|labels| - |end|..] == end;
    MatchIsCover(r, i, prefix + "." + domain);
  }

  /** One more exact entry blocks that domain as it is written, and neither a subdomain nor another spelling. */
  lemma ExactEntryBlocksOnlyItself(r: RuleSet, domain: string, other: string)
    ensures IsDomainBlocked(r.(domains := r.domains + {domain}), other) <==> IsDomainBlocked(r, other) || other == domain
  {
  }

  /** What one entry is a pattern for: the domains with the labels behind its star and dot at the end, letter case aside. */
  ghost predicate CoveredBy(entry: string, domain: string) {
    exists s :: entry == "*." + s && LabelSuffix(Labels(Lower(s)), Labels(Lower(domain)))
  }

  lemma OneMorePattern(r: RuleSet, entry: string, domain: string)
    ensures IsDomainBlocked(r.(patterns := r.patterns + [entry]), domain) <==> IsDomainBlocked(r, domain) || CoveredBy(entry, domain)
  {
    var more := r.(patterns := r.patterns + [entry]);
    MatchIsCover(more, |r.patterns|, domain);
    assert DomainMatchesPattern(Lower(domain), Lower(more.patterns[|r.patterns|])) <==> CoveredBy(entry, domain);
    assert forall i :: 0 <= i < |r.patterns| ==> more.patterns[i] == r.patterns[i];
  }

  /** Entering a domain blocks what it covers if it has a star anywhere, and itself as it is written if not. */
  lemma EntryBlocks(r: RuleSet, entry: string, domain: string)
    ensures IsDomainBlocked(WithDomain(r, entry), domain) <==>
      IsDomainBlocked(r, domain) || if '*' in entry then CoveredBy(entry, domain) else domain == entry
  {
    OneMorePattern(r, entry, domain);
  }

  // ---------------------------------------------------------------- the verdict

  datatype Kind = IP | APP | DOMAIN | PORT
  datatype BlockReason = BlockReason(kind: Kind, detail: string)

  predicate Applies(r: RuleSet, kind: Kind, srcIp: uint32, dstPort: uint16, app: AppType, domain: string) {
    match kind
    case IP => srcIp in r.ips
    case PORT => dstPort in r.ports
    case APP => app in r.apps
    case DOMAIN => domain != "" && IsDomainBlocked(r, domain)
  }

  /** The order in which the kinds of rules are consulted. */
  function Priority(kind: Kind): nat {
    match kind
    case IP => 0
    case PORT => 1
    case APP => 2
    case DOMAIN => 3
  }

  /** A reason is the first kind that applies; there is none exactly when no kind applies. */
  ghost predicate IsVerdict(r: RuleSet, srcIp: uint32, dstPort: uint16, app: AppType, domain: string, verdict: Option<BlockReason>) {
    match verdict
    case None => forall kind :: !Applies(r, kind, srcIp, dstPort, app, domain)
    case Some(reason) =>
      && Applies(r, reason.kind, srcIp, dstPort, app, domain)
      && (forall kind :: Priority(kind) < Priority(reason.kind) ==> !Applies(r, kind, srcIp, dstPort, app, domain))
      && reason.detail == (match reason.kind
        case IP => IpToString(srcIp)
        case PORT => Decimal(dstPort)
        case APP => AppName(app)
        case DOMAIN => domain)
  }

  /** Address before port, port before application, application before domain. */
  lemma VerdictInOrder(r: RuleSet, srcIp: uint32, dstPort: uint16, app: AppType, domain: string, verdict: Option<BlockReason>)
    requires IsVerdict(r, srcIp, dstPort, app, domain, verdict)
    ensures verdict ==
      if srcIp in r.ips then Some(BlockReason(IP, IpToString(srcIp)))
      else if dstPort in r.ports then Some(BlockReason(PORT, Decimal(dstPort)))
      else if app in r.apps then Some(BlockReason(APP, AppName(app)))
      else if domain != "" && IsDomainBlocked(r, domain) then Some(BlockReason(DOMAIN, domain))
      else None
  {
    assert Applies(r, IP, srcIp, dstPort, app, domain) <==> srcIp in r.ips;
    assert Applies(r, PORT, srcIp, dstPort, app, domain) <==> dstPort in r.ports;
    assert Applies(r, APP, srcIp, dstPort, app, domain) <==> app in r.apps;
    assert Applies(r, DOMAIN, srcIp, dstPort, app, domain) <==> domain != "" && IsDomainBlocked(r, domain);
  }

  // ---------------------------------------------------------------- the manager

  /** `std::find`: the first place where `x` stands, or the end. */
  method FindFirst(s: seq<string>, x: string) returns (i: nat)
    ensures i <= |s|
    ensures WithoutFirst(s, x) == if i < |s| then s[..i] + s[i + 1..] else s
  {
    i := 0;
    while i < |s| && s[i] != x
      invariant 0 <= i <= |s|
      invariant WithoutFirst(s, x) == s[..i] + WithoutFirst(s[i..], x)
    {
      assert s[i..][1..] == s[i + 1..];
      i := i + 1;
    }
    if i < |s| {
      assert s[i..][1..] == s[i + 1..];
    }
  }

  class RuleManager {
    var blockedIps: set<uint32>
    var blockedApps: set<AppType>
    var blockedDomains: set<string>
    var domainPatterns: seq<string>
    var blockedPorts: set<uint16>

    function View(): RuleSet
      reads this
    {
      RuleSet(blockedIps, blockedApps, blockedDomains, domainPatterns, blockedPorts)
    }

    ghost predicate Valid()
      reads this
    {
      Sorted(View())
    }

    constructor ()
      ensures Valid() && View() == NO_RULES
    {
      blockedIps, blockedApps, blockedDomains, domainPatterns, blockedPorts := {}, {}, {}, [], {};
    }

    method BlockIp(ip: uint32)
      requires Valid()
      modifies this
      ensures Valid() && View() == old(View()).(ips := old(View()).ips + {ip})
    {
      blockedIps := blockedIps + {ip};
    }

    /** The text form; addresses whose parse C++ leaves undefined are the caller's to avoid. */
    method BlockIpText(text: string)
      requires Valid() && ParseIP(text).Some?
      modifies this
      ensures Valid() && View() == old(View()).(ips := old(View()).ips + {ParseIP(text).value})
    {
      var ip := ParseIPLoop(text);
      BlockIp(ip.value);
    }

    method UnblockIp(ip: uint32)
      requires Valid()
      modifies this
      ensures Valid() && View() == old(View()).(ips := old(View()).ips - {ip})
    {
      blockedIps := blockedIps - {ip};
    }

    method BlockApp(app: AppType)
      requires Valid()
      modifies this
      ensures Valid() && View() == old(View()).(apps := old(View()).apps + {app})
    {
      blockedApps := blockedApps + {app};
    }

    method UnblockApp(app: AppType)
      requires Valid()
      modifies this
      ensures Valid() && View() == old(View()).(apps := old(View()).apps - {app})
    {
      blockedApps := blockedApps - {app};
    }

    method BlockDomain(domain: string)
      requires Valid()
      modifies this
      ensures Valid() && View() == WithDomain(old(View()), domain)
    {
      DomainsStaySorted(View(), domain);
      if '*' in domain {
        domainPatterns := domainPatterns + [domain];
      } else {
        blockedDomains := blockedDomains + {domain};
      }
    }

    /** Finds the first equal pattern and erases it in place. */
    method UnblockDomain(domain: string)
      requires Valid()
      modifies this
      ensures Valid() && View() == WithoutDomain(old(View()), domain)
    {
      DomainsStaySorted(View(), domain);
      if '*' in domain {
        var i := FindFirst(domainPatterns, domain);
        if i < |domainPatterns| {
          domainPatterns := domainPatterns[..i] + domainPatterns[i + 1..];
        }
      } else {
        blockedDomains := blockedDomains - {domain};
      }
    }

    method BlockPort(port: uint16)
      requires Valid()
      modifies this
      ensures Valid() && View() == old(View()).(ports := old(View()).ports + {port})
    {
      blockedPorts := blockedPorts + {port};
    }

    method UnblockPort(port: uint16)
      requires Valid()
      modifies this
      ensures Valid() && View() == old(View()).(ports := old(View()).ports - {port})
    {
      blockedPorts := blockedPorts - {port};
    }

    method ClearAll()
      modifies this
      ensures Valid() && View() == NO_RULES
    {
      blockedIps, blockedApps, blockedDomains, domainPatterns, blockedPorts := {}, {}, {}, [], {};
    }

    method DomainBlocked(domain: string) returns (blocked: bool)
      ensures blocked == IsDomainBlocked(View(), domain)
    {
      if domain in blockedDomains {
        return true;
      }
      var lower := Lower(domain);
      for i := 0 to |domainPatterns|
        invariant forall k :: 0 <= k < i ==> !DomainMatchesPattern(Lower(domain), Lower(domainPatterns[k]))
      {
        if DomainMatchesPattern(lower, Lower(domainPatterns[i])) {
          return true;
        }
      }
      blocked := false;
    }

    method ShouldBlock(srcIp: uint32, dstPort: uint16, app: AppType, domain: string) returns (verdict: Option<BlockReason>)
      ensures IsVerdict(View(), srcIp, dstPort, app, domain, verdict)
    {
      if srcIp in blockedIps {
        return Some(BlockReason(IP, IpToString(srcIp)));
      }
      if dstPort in blockedPorts {
        return Some(BlockReason(PORT, Decimal(dstPort)));
      }
      if app in blockedApps {
        return Some(BlockReason(APP, AppName(app)));
      }
      if domain != "" {
        var blocked := DomainBlocked(domain);
        if blocked {
          return Some(BlockReason(DOMAIN, domain));
        }
      }
      verdict := None;
    }
  }
}
