/** Saving the rules to a text file and loading them back. */
module RuleFile {
  import opened Types
  import opened Text
  import opened IpText
  import opened AppNames
  import opened Rules

  // ---------------------------------------------------------------- the saved text

  /** The orders in which the unordered sets happen to be iterated over. */
  datatype Orders = Orders(ips: seq<uint32>, apps: seq<AppType>, domains: seq<string>, ports: seq<uint16>)

  function Elements<T(==)>(order: seq<T>): set<T> {
    set x | x in order
  }

  predicate Lists<T(==)>(order: seq<T>, s: set<T>) {
    Elements(order) == s
  }

  predicate OrdersOf(o: Orders, r: RuleSet) {
    Lists(o.ips, r.ips) && Lists(o.apps, r.apps) && Lists(o.domains, r.domains) && Lists(o.ports, r.ports)
  }

  function Unlines(lines: seq<string>): string {
    if lines == [] then "" else Unlines(lines[..|lines| - 1]) + lines[|lines| - 1] + "\n"
  }

  function IpLines(ips: seq<uint32>): seq<string> {
    seq(|ips|, i requires 0 <= i < |ips| => IpToString(ips[i]))
  }

  function AppLines(apps: seq<AppType>): seq<string> {
    seq(|apps|, i requires 0 <= i < |apps| => AppName(apps[i]))
  }

  function PortLines(ports: seq<uint16>): seq<string> {
    seq(|ports|, i requires 0 <= i < |ports| => Decimal(ports[i]))
  }

  /** The headers of the four sections. The proofs use no more of them than `GoodHeaders` says. */
  datatype Headers = Headers(ips: string, apps: string, domains: string, ports: string)

  const HEADERS := Headers("[BLOCKED_IPS]", "[BLOCKED_APPS]", "[BLOCKED_DOMAINS]", "[BLOCKED_PORTS]")

  predicate GoodHeader(header: string) {
    header != "" && header[0] == '[' && '\n' !in header
  }

  predicate GoodHeaders(h: Headers) {
    && GoodHeader(h.ips) && GoodHeader(h.apps) && GoodHeader(h.domains) && GoodHeader(h.ports)
    && h.ips != h.apps && h.ips != h.domains && h.ips != h.ports
    && h.apps != h.domains && h.apps != h.ports && h.domains != h.ports
  }

  lemma HeadersAreGood()
    ensures GoodHeaders(HEADERS)
  {
  }

  /** A blank line, a header and the section's entries. */
  function Section(header: string, entries: seq<string>): string {
    "\n" + (header + ("\n" + Unlines(entries)))
  }

  function DomainsText(h: Headers, o: Orders, patterns: seq<string>): string {
    Section(h.domains, o.domains + patterns) + Section(h.ports, PortLines(o.ports))
  }

  function AppsText(h: Headers, o: Orders, patterns: seq<string>): string {
    Section(h.apps, AppLines(o.apps)) + DomainsText(h, o, patterns)
  }

  function SavedText(h: Headers, o: Orders, patterns: seq<string>): string {
    h.ips + "\n" + Unlines(IpLines(o.ips)) + AppsText(h, o, patterns)
  }

  lemma OneLine(line: string)
    ensures Unlines([line]) == line + "\n"
  {
    assert [line][..0] == [];
  }

  lemma SampleApps()
    ensures Section(HEADERS.apps, AppLines([HTTP])) == "\n[BLOCKED_APPS]\nHTTP\n"
  {
    var lines := AppLines([HTTP]);
    assert AppName(HTTP) == "HTTP" && lines == ["HTTP"];
    OneLine("HTTP");
    assert Unlines(lines) == "HTTP\n";
  }

  lemma SampleDomains()
    ensures Section(HEADERS.domains, ["a.b"] + ["*.c"]) == "\n[BLOCKED_DOMAINS]\na.b\n*.c\n"
  {
    OneLine("a.b");
    assert ["a.b"] + ["*.c"] == ["a.b", "*.c"] && ["a.b", "*.c"][..1] == ["a.b"];
    assert Unlines(["a.b", "*.c"]) == "a.b\n*.c\n";
  }

  lemma SamplePorts()
    ensures Section(HEADERS.ports, PortLines([80])) == "\n[BLOCKED_PORTS]\n80\n"
  {
    assert Decimal(8) == "8" && Decimal(80) == "80" && PortLines([80]) == ["80"];
    OneLine("80");
  }

  /** A saved file with one entry of each kind, and a pattern. */
  lemma SampleFile(ip: uint32)
    ensures SavedText(HEADERS, Orders([ip], [HTTP], ["a.b"], [80]), ["*.c"]) ==
      ("[BLOCKED_IPS]" + "\n" + (IpToString(ip) + "\n"))
      + ("\n[BLOCKED_APPS]\nHTTP\n" + ("\n[BLOCKED_DOMAINS]\na.b\n*.c\n" + "\n[BLOCKED_PORTS]\n80\n"))
  {
    OneLine(IpToString(ip));
    assert IpLines([ip]) == [IpToString(ip)];
    SampleApps();
    SampleDomains();
    SamplePorts();
  }

  method Enumerate<T(==)>(s: set<T>) returns (order: seq<T>)
    ensures Lists(order, s)
  {
    order := [];
    var rest := s;
    while rest != {}
      invariant rest <= s && Elements(order) == s - rest
      decreases rest
    {
      var x :| x in rest;
      assert Elements(order + [x]) == Elements(order) + {x};
      order, rest := order + [x], rest - {x};
    }
  }

  method WriteLines(text: string, lines: seq<string>) returns (r: string)
    ensures r == text + Unlines(lines)
  {
    r := text;
    for i := 0 to |lines|
      invariant r == text + Unlines(lines[..i])
    {
      assert lines[..i + 1][..i] == lines[..i];
      r := r + lines[i] + "\n";
    }
    assert lines[..|lines|] == lines;
  }

  method WriteSection(text: string, header: string, entries: seq<string>) returns (r: string)
    ensures r == text + Section(header, entries)
  {
    r := WriteLines(text + "\n" + header + "\n", entries);
  }

  /** The text holds the rules, each set in some order. */
  ghost predicate IsSaved(h: Headers, r: RuleSet, text: string) {
    exists o :: OrdersOf(o, r) && text == SavedText(h, o, r.patterns)
  }

  method WriteRules(h: Headers, m: RuleManager) returns (text: string)
    ensures IsSaved(h, m.View(), text)
  {
    var ips := Enumerate(m.blockedIps);
    var apps := Enumerate(m.blockedApps);
    var domains := Enumerate(m.blockedDomains);
    var ports := Enumerate(m.blockedPorts);
    ghost var o := Orders(ips, apps, domains, ports);
    text := WriteLines(h.ips + "\n", IpLines(ips));
    Regroup(text, Section(h.apps, AppLines(apps)), Section(h.domains, domains + m.domainPatterns), Section(h.ports, PortLines(ports)));
    text := WriteSection(text, h.apps, AppLines(apps));
    text := WriteSection(text, h.domains, domains + m.domainPatterns);
    text := WriteSection(text, h.ports, PortLines(ports));
    assert OrdersOf(o, m.View()) && text == SavedText(h, o, m.View().patterns);
  }

  lemma Regroup(a: string, b: string, c: string, d: string)
    ensures a + b + c + d == a + (b + (c + d))
  {
  }

  /** The file that `saveRules` writes, for whatever orders its iterations take. */
  method SaveRules(m: RuleManager) returns (text: string)
    ensures IsSaved(HEADERS, m.View(), text)
  {
    text := WriteRules(HEADERS, m);
  }

  // ---------------------------------------------------------------- loading

  predicate IsSpace(c: char) {
    c == ' ' || '\t' <= c <= '\r'
  }

  function SkipSpace(s: string): string {
    if s != "" && IsSpace(s[0]) then SkipSpace(s[1..]) else s
  }

  function DigitRun(s: string): (n: nat)
    ensures n <= |s|
    ensures forall i :: 0 <= i < n ==> IsDigit(s[i])
    ensures n < |s| ==> !IsDigit(s[n])
  {
    if s == "" || !IsDigit(s[0]) then 0 else 1 + DigitRun(s[1..])
  }

  /** `std::stoi`: space, sign, digits, and anything after them; none when it throws. */
  function Stoi(s: string): Option<int> {
    var t := SkipSpace(s);
    if t != "" && (t[0] == '-' || t[0] == '+') then Signed(t[1..], t[0] == '-') else Signed(t, false)
  }

  function Signed(s: string, negative: bool): Option<int> {
    if DigitRun(s) == 0 then None else InRange(DecimalValue(s[..DigitRun(s)]), negative)
  }

  function InRange(digits: int, negative: bool): Option<int> {
    var v := if negative then -digits else digits;
    if -0x8000_0000 <= v <= INT_MAX then Some(v) else None
  }

  /** The cast to `uint16_t` wraps. */
  function ToUint16(v: int): uint16 {
    v % 0x1_0000
  }

  datatype Loading =
    | Loading(rules: RuleSet, section: string)
    | Threw(rules: RuleSet)      // `stoi` threw; the rules read so far stay
    | Nothing                    // an address whose parse C++ leaves undefined

  ghost function LoadLine(h: Headers, l: Loading, line: string): Loading {
    if !l.Loading? || line == "" then l
    else if line[0] == '[' then l.(section := line)
    else if l.section == h.ips then
      var ip := ParseIP(line);
      if ip.None? then Nothing else l.(rules := l.rules.(ips := l.rules.ips + {ip.value}))
    else if l.section == h.apps then
      var app := AppNamed(line);
      if app.None? then l else l.(rules := l.rules.(apps := l.rules.apps + {app.value}))
    else if l.section == h.domains then l.(rules := WithDomain(l.rules, line))
    else if l.section == h.ports then
      var v := Stoi(line);
      if v.None? then Threw(l.rules) else l.(rules := l.rules.(ports := l.rules.ports + {ToUint16(v.value)}))
    else l
  }

  ghost function LoadLines(h: Headers, l: Loading, lines: seq<string>): Loading {
    if lines == [] then l else LoadLine(h, LoadLines(h, l, lines[..|lines| - 1]), lines[|lines| - 1])
  }

  /** What loading makes of the rules: `getline` gives the pieces between line ends, and empty ones are skipped. */
  ghost function LoadText(h: Headers, rules: RuleSet, text: string): Loading {
    LoadLines(h, Loading(rules, ""), Split(text, '\n'))
  }

  datatype Outcome = Loaded | Failed | Lost

  /** The manager holds what the lines so far say, unless C++ says nothing. */
  ghost predicate Reflects(l: Loading, outcome: Outcome, rules: RuleSet) {
    match outcome
    case Loaded => l.Loading? && l.rules == rules
    case Failed => l.Threw? && l.rules == rules
    case Lost => l.Nothing?
  }

  /** One line of the file, in the section that is open. */
  method ApplyLine(h: Headers, m: RuleManager, section: string, line: string) returns (outcome: Outcome)
    requires m.Valid() && line != "" && line[0] != '['
    modifies m
    ensures m.Valid() && Reflects(LoadLine(h, Loading(old(m.View()), section), line), outcome, m.View())
  {
    outcome := Loaded;
    if section == h.ips {
      var ip := ParseIPLoop(line);
      if ip.None? {
        return Lost;
      }
      m.BlockIp(ip.value);
    } else if section == h.apps {
      var app := FindApp(line);
      NamesIsUnique(line, app);
      if app.Some? {
        m.BlockApp(app.value);
      }
    } else if section == h.domains {
      m.BlockDomain(line);
    } else if section == h.ports {
      var v := Stoi(line);
      if v.None? {
        return Failed;
      }
      m.BlockPort(ToUint16(v.value));
    }
  }

  method ReadRules(h: Headers, m: RuleManager, text: string) returns (outcome: Outcome)
    requires m.Valid()
    modifies m
    ensures m.Valid() && Reflects(LoadText(h, old(m.View()), text), outcome, m.View())
  {
    var lines, section, i := Split(text, '\n'), "", 0;
    ghost var start := Loading(m.View(), "");
    while i < |lines|
      invariant 0 <= i <= |lines| && m.Valid()
      invariant LoadLines(h, start, lines[..i]) == Loading(m.View(), section)
    {
      var line := lines[i];
      assert lines[..i + 1][..i] == lines[..i];
      if line != "" {
        if line[0] == '[' {
          section := line;
        } else {
          outcome := ApplyLine(h, m, section, line);
          if outcome != Loaded {
            StoppedLoadingStays(h, start, lines, i + 1);
            return;
          }
        }
      }
      i := i + 1;
    }
    assert lines[..i] == lines;
    outcome := Loaded;
  }

  /** `loadRules` on a manager that may already hold rules. */
  method LoadRules(m: RuleManager, text: string) returns (outcome: Outcome)
    requires m.Valid()
    modifies m
    ensures m.Valid() && Reflects(LoadText(HEADERS, old(m.View()), text), outcome, m.View())
  {
    outcome := ReadRules(HEADERS, m, text);
  }

  lemma {:induction false} StoppedLoadingStays(h: Headers, l: Loading, lines: seq<string>, n: nat)
    requires n <= |lines| && !LoadLines(h, l, lines[..n]).Loading?
    ensures LoadLines(h, l, lines) == LoadLines(h, l, lines[..n])
    decreases |lines|
  {
    if n == |lines| {
      assert lines[..n] == lines;
    } else {
      var front := lines[..|lines| - 1];
      assert front[..n] == lines[..n];
      StoppedLoadingStays(h, l, front, n);
    }
  }

  // ---------------------------------------------------------------- the round trip

  predicate Plain(line: string) {
    '\n' !in line
  }

  /** An entry that comes back from the file: it is a line of its own and does not look like a header. */
  predicate Loadable(entry: string) {
    entry != "" && entry[0] != '[' && Plain(entry)
  }

  predicate AllLoadable(entries: seq<string>) {
    forall i :: 0 <= i < |entries| ==> Loadable(entries[i])
  }

  predicate Saveable(r: RuleSet) {
    (forall d :: d in r.domains ==> Loadable(d)) && AllLoadable(r.patterns)
  }

  lemma {:induction false} UnlinesAppend(a: seq<string>, b: seq<string>)
    ensures Unlines(a + b) == Unlines(a) + Unlines(b)
    decreases |b|
  {
    if b == [] {
      assert a + b == a;
    } else {
      assert (a + b)[..|a + b| - 1] == a + b[..|b| - 1];
      UnlinesAppend(a, b[..|b| - 1]);
    }
  }

  lemma LineFirst(front: string, line: string, rest: string)
    ensures front + line + "\n" + rest == front + (line + "\n" + rest)
  {
  }

  lemma SplitFirstLine(line: string, rest: string)
    requires Plain(line)
    ensures Split(line + "\n" + rest, '\n') == [line] + Split(rest, '\n')
  {
    SplitAtSeparator(line, rest, '\n');
    SplitWithoutSeparator(line, '\n');
  }

  lemma {:induction false} SplitUnlines(lines: seq<string>, rest: string)
    requires forall i :: 0 <= i < |lines| ==> Plain(lines[i])
    ensures Split(Unlines(lines) + rest, '\n') == lines + Split(rest, '\n')
  {
    if lines == [] {
      assert Unlines(lines) + rest == rest;
    } else {
      var front, last := lines[..|lines| - 1], lines[|lines| - 1];
      LineFirst(Unlines(front), last, rest);
      SplitUnlines(front, last + "\n" + rest);
      SplitFirstLine(last, rest);
      assert lines == front + [last];
    }
  }

  lemma {:induction false} LoadAppend(h: Headers, l: Loading, a: seq<string>, b: seq<string>)
    ensures LoadLines(h, l, a + b) == LoadLines(h, LoadLines(h, l, a), b)
    decreases |b|
  {
    if b == [] {
      assert a + b == a;
    } else {
      assert (a + b)[..|a + b| - 1] == a + b[..|b| - 1];
      LoadAppend(h, l, a, b[..|b| - 1]);
    }
  }

  /** A blank line and a header open a section. */
  lemma LoadHeader(h: Headers, l: Loading, header: string)
    requires l.Loading? && header != "" && header[0] == '['
    ensures LoadLines(h, l, ["", header]) == l.(section := header)
    ensures LoadLines(h, l, [header]) == l.(section := header)
  {
    assert ["", header][..1] == [""] && [""][..0] == [] && [header][..0] == [];
    assert LoadLines(h, l, [""]) == l;
  }

  lemma AddressLine(ip: uint32)
    ensures Loadable(IpToString(ip)) && ParseIP(IpToString(ip)) == Some(ip)
  {
    AddressRoundTrip(ip);
    DottedIsPlain(Octets(ip));
  }

  lemma {:induction false} DottedIsPlain(octets: seq<byte>)
    requires |octets| >= 1
    ensures Loadable(Dotted(octets))
    decreases |octets|
  {
    var first := Decimal(octets[0]);
    assert IsDigit(first[0]);
    if |octets| > 1 {
      DottedIsPlain(octets[1..]);
    }
  }

  lemma ElementsGrow<T>(order: seq<T>, before: set<T>)
    requires order != []
    ensures var front, last := order[..|order| - 1], order[|order| - 1];
      before + Elements(order) == before + Elements(front) + {last}
  {
  }

  lemma LoadIpLine(h: Headers, l: Loading, ip: uint32)
    requires GoodHeaders(h) && l.Loading? && l.section == h.ips
    ensures LoadLine(h, l, IpToString(ip)) == l.(rules := l.rules.(ips := l.rules.ips + {ip}))
  {
    AddressLine(ip);
  }

  lemma {:induction false} LoadIpLines(h: Headers, l: Loading, ips: seq<uint32>)
    requires GoodHeaders(h) && l.Loading? && l.section == h.ips
    ensures LoadLines(h, l, IpLines(ips)) == l.(rules := l.rules.(ips := l.rules.ips + Elements(ips)))
  {
    if ips == [] {
      assert l.rules.ips + Elements(ips) == l.rules.ips;
    } else {
      var front, last := ips[..|ips| - 1], ips[|ips| - 1];
      LoadIpLines(h, l, front);
      assert IpLines(ips)[..|ips| - 1] == IpLines(front);
      LoadIpLine(h, LoadLines(h, l, IpLines(front)), last);
      ElementsGrow(ips, l.rules.ips);
    }
  }

  lemma LoadAppLine(h: Headers, l: Loading, app: AppType)
    requires GoodHeaders(h) && l.Loading? && l.section == h.apps
    ensures LoadLine(h, l, AppName(app)) == l.(rules := l.rules.(apps := l.rules.apps + {app}))
  {
    AppRoundTrip(app);
    NameIsLoadable(app);
  }

  lemma {:induction false} LoadAppLines(h: Headers, l: Loading, apps: seq<AppType>)
    requires GoodHeaders(h) && l.Loading? && l.section == h.apps
    ensures LoadLines(h, l, AppLines(apps)) == l.(rules := l.rules.(apps := l.rules.apps + Elements(apps)))
  {
    if apps == [] {
      assert l.rules.apps + Elements(apps) == l.rules.apps;
    } else {
      var front, last := apps[..|apps| - 1], apps[|apps| - 1];
      LoadAppLines(h, l, front);
      assert AppLines(apps)[..|apps| - 1] == AppLines(front);
      LoadAppLine(h, LoadLines(h, l, AppLines(front)), last);
      ElementsGrow(apps, l.rules.apps);
    }
  }

  lemma NameIsLoadable(app: AppType)
    ensures Loadable(AppName(app))
  {
  }

  lemma DecimalIsLoadable(n: nat)
    ensures Loadable(Decimal(n))
  {
  }

  lemma {:induction false} AllDigits(s: string)
    requires forall i :: 0 <= i < |s| ==> IsDigit(s[i])
    ensures DigitRun(s) == |s|
  {
  }

  lemma StoiOfDigits(s: string)
    requires s != "" && (forall i :: 0 <= i < |s| ==> IsDigit(s[i])) && DecimalValue(s) <= INT_MAX
    ensures Stoi(s) == Some(DecimalValue(s))
  {
    AllDigits(s);
    assert SkipSpace(s) == s by {
      assert IsDigit(s[0]);
    }
    assert s[..|s|] == s;
  }

  lemma PortLine(port: uint16)
    ensures Loadable(Decimal(port)) && Stoi(Decimal(port)) == Some(port) && ToUint16(port) == port
  {
    DecimalIsLoadable(port);
    DecimalRoundTrip(port);
    StoiOfDigits(Decimal(port));
  }

  lemma LoadPortLine(h: Headers, l: Loading, line: string, port: uint16)
    requires GoodHeaders(h) && l.Loading? && l.section == h.ports
    requires Loadable(line) && Stoi(line) == Some(port) && ToUint16(port) == port
    ensures LoadLine(h, l, line) == l.(rules := l.rules.(ports := l.rules.ports + {port}))
  {
  }

  lemma {:induction false} LoadPortLines(h: Headers, l: Loading, ports: seq<uint16>)
    requires GoodHeaders(h) && l.Loading? && l.section == h.ports
    ensures LoadLines(h, l, PortLines(ports)) == l.(rules := l.rules.(ports := l.rules.ports + Elements(ports)))
  {
    if ports == [] {
      assert l.rules.ports + Elements(ports) == l.rules.ports;
    } else {
      var front, last := ports[..|ports| - 1], ports[|ports| - 1];
      LoadPortLines(h, l, front);
      assert PortLines(ports)[..|ports| - 1] == PortLines(front);
      PortLine(last);
      LoadPortLine(h, LoadLines(h, l, PortLines(front)), Decimal(last), last);
      ElementsGrow(ports, l.rules.ports);
    }
  }

  lemma {:induction false} LoadExactLines(h: Headers, l: Loading, domains: seq<string>)
    requires GoodHeaders(h) && l.Loading? && l.section == h.domains && AllLoadable(domains)
    requires forall i :: 0 <= i < |domains| ==> '*' !in domains[i]
    ensures LoadLines(h, l, domains) == l.(rules := l.rules.(domains := l.rules.domains + Elements(domains)))
  {
    if domains == [] {
      assert l.rules.domains + Elements(domains) == l.rules.domains;
    } else {
      LoadExactLines(h, l, domains[..|domains| - 1]);
      ElementsGrow(domains, l.rules.domains);
    }
  }

  lemma {:induction false} LoadPatternLines(h: Headers, l: Loading, patterns: seq<string>)
    requires GoodHeaders(h) && l.Loading? && l.section == h.domains && AllLoadable(patterns)
    requires forall i :: 0 <= i < |patterns| ==> '*' in patterns[i]
    ensures LoadLines(h, l, patterns) == l.(rules := l.rules.(patterns := l.rules.patterns + patterns))
  {
    if patterns == [] {
      assert l.rules.patterns + patterns == l.rules.patterns;
    } else {
      var front, last := patterns[..|patterns| - 1], patterns[|patterns| - 1];
      LoadPatternLines(h, l, front);
      assert l.rules.patterns + front + [last] == l.rules.patterns + patterns;
    }
  }

  // ---------------------------------------------------------------- the whole file

  function PortPart(h: Headers, o: Orders): seq<string> {
    ["", h.ports] + PortLines(o.ports)
  }

  function DomainPart(h: Headers, o: Orders, patterns: seq<string>): seq<string> {
    ["", h.domains] + ((o.domains + patterns) + PortPart(h, o))
  }

  function AppPart(h: Headers, o: Orders, patterns: seq<string>): seq<string> {
    ["", h.apps] + (AppLines(o.apps) + DomainPart(h, o, patterns))
  }

  function SavedLines(h: Headers, o: Orders, patterns: seq<string>): seq<string> {
    [h.ips] + (IpLines(o.ips) + AppPart(h, o, patterns))
  }

  lemma UnlinesOfHeader(header: string)
    ensures Unlines([header]) == header + "\n" && Unlines(["", header]) == "\n" + (header + "\n")
  {
  }

  lemma SectionIsLines(header: string, entries: seq<string>, rest: seq<string>)
    ensures Unlines(["", header] + (entries + rest)) == Section(header, entries) + Unlines(rest)
  {
    UnlinesOfHeader(header);
    UnlinesAppend(["", header], entries + rest);
    UnlinesAppend(entries, rest);
  }

  lemma FirstSectionIsLines(header: string, entries: seq<string>, rest: seq<string>)
    ensures Unlines([header] + (entries + rest)) == header + "\n" + Unlines(entries) + Unlines(rest)
  {
    UnlinesOfHeader(header);
    UnlinesAppend([header], entries + rest);
    UnlinesAppend(entries, rest);
  }

  lemma SavedTextIsLines(h: Headers, o: Orders, patterns: seq<string>)
    ensures SavedText(h, o, patterns) == Unlines(SavedLines(h, o, patterns))
  {
    FirstSectionIsLines(h.ips, IpLines(o.ips), AppPart(h, o, patterns));
    AppsTextIsLines(h, o, patterns);
  }

  lemma AppsTextIsLines(h: Headers, o: Orders, patterns: seq<string>)
    ensures AppsText(h, o, patterns) == Unlines(AppPart(h, o, patterns))
  {
    SectionIsLines(h.apps, AppLines(o.apps), DomainPart(h, o, patterns));
    SectionIsLines(h.domains, o.domains + patterns, PortPart(h, o));
    SectionIsLines(h.ports, PortLines(o.ports), []);
    assert PortLines(o.ports) + [] == PortLines(o.ports);
    assert Section(h.ports, PortLines(o.ports)) + "" == Section(h.ports, PortLines(o.ports));
  }

  lemma LinesArePlain(h: Headers, o: Orders, patterns: seq<string>)
    requires GoodHeaders(h) && AllLoadable(o.domains) && AllLoadable(patterns)
    ensures AllPlain(SavedLines(h, o, patterns))
  {
    forall i | 0 <= i < |o.ips| ensures Plain(IpLines(o.ips)[i]) {
      AddressLine(o.ips[i]);
    }
    forall i | 0 <= i < |o.apps| ensures Plain(AppLines(o.apps)[i]) {
      NameIsLoadable(o.apps[i]);
    }
    forall i | 0 <= i < |o.ports| ensures Plain(PortLines(o.ports)[i]) {
      DecimalIsLoadable(o.ports[i]);
    }
    PlainAppend(["", h.ports], PortLines(o.ports));
    PlainAppend(o.domains, patterns);
    PlainAppend(o.domains + patterns, PortPart(h, o));
    PlainAppend(["", h.domains], (o.domains + patterns) + PortPart(h, o));
    PlainAppend(AppLines(o.apps), DomainPart(h, o, patterns));
    PlainAppend(["", h.apps], AppLines(o.apps) + DomainPart(h, o, patterns));
    PlainAppend(IpLines(o.ips), AppPart(h, o, patterns));
  }

  predicate AllPlain(lines: seq<string>) {
    forall i :: 0 <= i < |lines| ==> Plain(lines[i])
  }

  lemma PlainAppend(a: seq<string>, b: seq<string>)
    requires AllPlain(a) && AllPlain(b)
    ensures AllPlain(a + b)
  {
  }

  lemma LoadSection(h: Headers, l: Loading, header: string, entries: seq<string>, rest: seq<string>)
    requires l.Loading? && header != "" && header[0] == '['
    ensures LoadLines(h, l, ["", header] + (entries + rest)) == LoadLines(h, LoadLines(h, l.(section := header), entries), rest)
  {
    LoadHeader(h, l, header);
    LoadAppend(h, l, ["", header], entries + rest);
    LoadAppend(h, l.(section := header), entries, rest);
  }

  lemma LoadPortPart(h: Headers, l: Loading, o: Orders, r: RuleSet)
    requires GoodHeaders(h) && OrdersOf(o, r) && l.Loading? && l.rules.ports == {}
    ensures LoadLines(h, l, PortPart(h, o)) == Loading(l.rules.(ports := r.ports), h.ports)
  {
    LoadHeader(h, l, h.ports);
    LoadAppend(h, l, ["", h.ports], PortLines(o.ports));
    LoadPortLines(h, l.(section := h.ports), o.ports);
    assert {} + r.ports == r.ports;
  }

  lemma LoadDomainLines(h: Headers, l: Loading, o: Orders, r: RuleSet)
    requires GoodHeaders(h) && Sorted(r) && OrdersOf(o, r) && Saveable(r)
    requires l.Loading? && l.section == h.domains && l.rules.domains == {} && l.rules.patterns == []
    ensures LoadLines(h, l, o.domains + r.patterns) == l.(rules := l.rules.(domains := r.domains, patterns := r.patterns))
  {
    var withDomains := l.(rules := l.rules.(domains := r.domains));
    ListedAreLoadable(o, r);
    LoadAppend(h, l, o.domains, r.patterns);
    LoadExactLines(h, l, o.domains);
    assert {} + r.domains == r.domains;
    LoadPatternLines(h, withDomains, r.patterns);
    assert [] + r.patterns == r.patterns;
  }

  lemma LoadDomainPart(h: Headers, l: Loading, o: Orders, r: RuleSet)
    requires GoodHeaders(h) && Sorted(r) && OrdersOf(o, r) && Saveable(r)
    requires l.Loading? && l.rules.domains == {} && l.rules.patterns == [] && l.rules.ports == {}
    ensures LoadLines(h, l, DomainPart(h, o, r.patterns)) == Loading(l.rules.(domains := r.domains, patterns := r.patterns, ports := r.ports), h.ports)
  {
    LoadSection(h, l, h.domains, o.domains + r.patterns, PortPart(h, o));
    LoadDomainLines(h, l.(section := h.domains), o, r);
    LoadPortPart(h, Loading(l.rules.(domains := r.domains, patterns := r.patterns), h.domains), o, r);
  }

  lemma LoadAppPart(h: Headers, l: Loading, o: Orders, r: RuleSet)
    requires GoodHeaders(h) && Sorted(r) && OrdersOf(o, r) && Saveable(r)
    requires l.Loading? && l.rules == NO_RULES.(ips := r.ips)
    ensures LoadLines(h, l, AppPart(h, o, r.patterns)) == Loading(r, h.ports)
  {
    LoadSection(h, l, h.apps, AppLines(o.apps), DomainPart(h, o, r.patterns));
    LoadAppLines(h, l.(section := h.apps), o.apps);
    assert {} + r.apps == r.apps;
    LoadDomainPart(h, Loading(l.rules.(apps := r.apps), h.apps), o, r);
  }

  lemma LoadSavedLines(h: Headers, o: Orders, r: RuleSet)
    requires GoodHeaders(h) && Sorted(r) && OrdersOf(o, r) && Saveable(r)
    ensures LoadLines(h, Loading(NO_RULES, ""), SavedLines(h, o, r.patterns)) == Loading(r, h.ports)
  {
    var start := Loading(NO_RULES, "");
    LoadHeader(h, start, h.ips);
    LoadAppend(h, start, [h.ips], IpLines(o.ips) + AppPart(h, o, r.patterns));
    LoadAppend(h, start.(section := h.ips), IpLines(o.ips), AppPart(h, o, r.patterns));
    LoadIpLines(h, start.(section := h.ips), o.ips);
    assert {} + r.ips == r.ips;
    LoadAppPart(h, Loading(NO_RULES.(ips := r.ips), h.ips), o, r);
  }

  lemma ListedAreLoadable(o: Orders, r: RuleSet)
    requires Sorted(r) && OrdersOf(o, r) && Saveable(r)
    ensures AllLoadable(o.domains) && forall i :: 0 <= i < |o.domains| ==> '*' !in o.domains[i]
  {
  }

  /** Whatever lines are loaded, what gets into the domain lists is loadable. */
  lemma {:induction false} OnlyLoadableIsLoaded(h: Headers, lines: seq<string>)
    requires AllPlain(lines)
    ensures LoadLines(h, Loading(NO_RULES, ""), lines).Loading? ==> Saveable(LoadLines(h, Loading(NO_RULES, ""), lines).rules)
  {
    if lines != [] {
      OnlyLoadableIsLoaded(h, lines[..|lines| - 1]);
    }
  }

  predicate Restored(l: Loading, r: RuleSet) {
    l.Loading? && l.rules == r
  }

  lemma SaveThenLoad(h: Headers, o: Orders, r: RuleSet)
    requires GoodHeaders(h) && Sorted(r) && OrdersOf(o, r)
    ensures Restored(LoadText(h, NO_RULES, SavedText(h, o, r.patterns)), r) <==> Saveable(r)
  {
    var text := SavedText(h, o, r.patterns);
    PiecesLackSeparator(text, '\n');
    OnlyLoadableIsLoaded(h, Split(text, '\n'));
    if Saveable(r) {
      var lines := SavedLines(h, o, r.patterns);
      ListedAreLoadable(o, r);
      LinesArePlain(h, o, r.patterns);
      SavedTextIsLines(h, o, r.patterns);
      SplitUnlines(lines, "");
      assert Unlines(lines) + "" == text;
      LoadAppend(h, Loading(NO_RULES, ""), lines, [""]);
      LoadSavedLines(h, o, r);
      assert [""][..0] == [];
    }
  }

  /**
   Loading a saved file into an empty manager restores the very same rules, patterns in order,
   whatever order the sets were written in, exactly when no domain entry is empty, contains a line
   end or begins like a section header.
   */
  lemma FileRoundTrip(r: RuleSet, text: string)
    requires Sorted(r) && IsSaved(HEADERS, r, text)
    ensures Restored(LoadText(HEADERS, NO_RULES, text), r) <==> Saveable(r)
  {
    var o :| OrdersOf(o, r) && text == SavedText(HEADERS, o, r.patterns);
    HeadersAreGood();
    SaveThenLoad(HEADERS, o, r);
  }

  /** The same of the managers themselves: what a new manager loads of what another has saved. */
  method Reload(m: RuleManager) returns (copy: RuleManager, outcome: Outcome)
    requires m.Valid()
    ensures copy.Valid() && fresh(copy)
    ensures outcome == Loaded && copy.View() == m.View() <==> Saveable(m.View())
  {
    var text := SaveRules(m);
    copy := new RuleManager();
    outcome := LoadRules(copy, text);
    FileRoundTrip(m.View(), text);
  }
}
