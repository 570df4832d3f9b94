/** The report over all trackers: counts by application, and the domains with the most packets. */
module GlobalTable {
  import opened Types
  import opened AppNames
  import opened Sums
  import opened Connections
  import opened ConnTracker

  // ---------------------------------------------------------------- what is gathered

  datatype AppFlow = AppFlow(flows: nat, packets: nat, bytes: nat)

  datatype Gathered = Gathered(distribution: map<AppType, nat>, flows: map<AppType, AppFlow>, domains: map<string, nat>)

  const NOTHING := Gathered(map[], map[], map[])
  const NO_FLOW := AppFlow(0, 0, 0)

  /** Looking a key up in an `unordered_map` enters it with the default value. */
  function Get<K, V>(m: map<K, V>, k: K, default: V): V {
    if k in m then m[k] else default
  }

  function Packets(c: Connection): nat {
    c.packetsIn + c.packetsOut
  }

  function Bytes(c: Connection): nat {
    c.bytesIn + c.bytesOut
  }

  /** One connection is added to the report. */
  function Add(g: Gathered, c: Connection): Gathered {
    var f := Get(g.flows, c.app, NO_FLOW);
    Gathered(
      g.distribution[c.app := Get(g.distribution, c.app, 0) + 1],
      g.flows[c.app := AppFlow(f.flows + 1, f.packets + Packets(c), f.bytes + Bytes(c))],
      if c.sni == "" then g.domains else g.domains[c.sni := Get(g.domains, c.sni, 0) + Packets(c)])
  }

  function Gather(cs: seq<Connection>): Gathered {
    if cs == [] then NOTHING else Add(Gather(cs[..|cs| - 1]), cs[|cs| - 1])
  }

  // ---------------------------------------------------------------- what the report says

  /** The connections that satisfy `p`, each weighed by `w`. */
  function Total(cs: seq<Connection>, p: Connection -> bool, w: Connection -> nat): nat {
    Sum(cs, (c: Connection) => if p(c) then w(c) else 0)
  }

  function OfApp(app: AppType): Connection -> bool {
    (c: Connection) => c.app == app
  }

  function OfDomain(domain: string): Connection -> bool {
    (c: Connection) => c.sni == domain
  }

  const ONE: Connection -> nat := (c: Connection) => 1
  const PACKETS: Connection -> nat := (c: Connection) => Packets(c)
  const BYTES: Connection -> nat := (c: Connection) => Bytes(c)

  lemma TotalOne(cs: seq<Connection>, p: Connection -> bool, w: Connection -> nat)
    requires cs != []
    ensures var before, c := cs[..|cs| - 1], cs[|cs| - 1];
      Total(cs, p, w) == Total(before, p, w) + if p(c) then w(c) else 0
  {
    assert cs == cs[..|cs| - 1] + [cs[|cs| - 1]];
    SumOne(cs[..|cs| - 1], cs[|cs| - 1], (c: Connection) => if p(c) then w(c) else 0);
  }

  /** Every entry of the report is the total over the connections it is about. */
  lemma {:induction false} GatheredCounts(cs: seq<Connection>, app: AppType)
    ensures Get(Gather(cs).distribution, app, 0) == Total(cs, OfApp(app), ONE)
    ensures Get(Gather(cs).flows, app, NO_FLOW) == AppFlow(Total(cs, OfApp(app), ONE), Total(cs, OfApp(app), PACKETS), Total(cs, OfApp(app), BYTES))
  {
    if cs != [] {
      GatheredCounts(cs[..|cs| - 1], app);
      TotalOne(cs, OfApp(app), ONE);
      TotalOne(cs, OfApp(app), PACKETS);
      TotalOne(cs, OfApp(app), BYTES);
    }
  }

  lemma {:induction false} GatheredDomains(cs: seq<Connection>, domain: string)
    requires domain != ""
    ensures Get(Gather(cs).domains, domain, 0) == Total(cs, OfDomain(domain), PACKETS)
  {
    if cs != [] {
      GatheredDomains(cs[..|cs| - 1], domain);
      TotalOne(cs, OfDomain(domain), PACKETS);
    }
  }

  predicate Mentions(cs: seq<Connection>, domain: string) {
    exists i :: 0 <= i < |cs| && cs[i].sni == domain
  }

  lemma MentionsOne(cs: seq<Connection>, c: Connection, domain: string)
    ensures Mentions(cs + [c], domain) <==> Mentions(cs, domain) || c.sni == domain
  {
    if c.sni == domain {
      assert (cs + [c])[|cs|].sni == domain;
    }
    if i :| 0 <= i < |cs| && cs[i].sni == domain {
      assert (cs + [c])[i].sni == domain;
    }
  }

  /** A domain is listed exactly when some connection has that name, and no name is no domain. */
  lemma {:induction false} OnlyNamesAreListed(cs: seq<Connection>, domain: string)
    ensures domain in Gather(cs).domains <==> domain != "" && Mentions(cs, domain)
  {
    if cs != [] {
      var before, c := cs[..|cs| - 1], cs[|cs| - 1];
      OnlyNamesAreListed(before, domain);
      assert cs == before + [c];
      MentionsOne(before, c, domain);
    }
  }

  /** The totals in the records' own fields: what came in and what went out, together. */
  lemma TotalsAreInAndOut(cs: seq<Connection>)
    ensures Sum(cs, PACKETS) == Sum(cs, (c: Connection) => c.packetsIn) + Sum(cs, (c: Connection) => c.packetsOut)
    ensures Sum(cs, BYTES) == Sum(cs, (c: Connection) => c.bytesIn) + Sum(cs, (c: Connection) => c.bytesOut)
  {
    SumToOfSums(cs, |cs|, (c: Connection) => c.packetsIn, (c: Connection) => c.packetsOut, PACKETS);
    SumToOfSums(cs, |cs|, (c: Connection) => c.bytesIn, (c: Connection) => c.bytesOut, BYTES);
  }

  // ---------------------------------------------------------------- sums over the applications

  function Share(cs: seq<Connection>, w: Connection -> nat): AppType -> nat {
    (app: AppType) => Total(cs, OfApp(app), w)
  }

  /** The shares of all applications, added up. */
  function OverApps(apps: seq<AppType>, cs: seq<Connection>, w: Connection -> nat): nat {
    Sum(apps, Share(cs, w))
  }

  ghost predicate GrowsBy(f: AppType -> nat, g: AppType -> nat, app: AppType, d: nat) {
    forall a :: g(a) == f(a) + if a == app then d else 0
  }

  /** One application's share grows, all others stay. */
  lemma {:induction false} OneShareGrows(apps: seq<AppType>, n: nat, f: AppType -> nat, g: AppType -> nat, app: AppType, d: nat)
    requires InOrder(apps) && n <= |apps| && GrowsBy(f, g, app, d)
    ensures SumTo(apps, n, g) == SumTo(apps, n, f) + if Ordinal(app) < n then d else 0
  {
    if n > 0 {
      OneShareGrows(apps, n - 1, f, g, app, d);
      SameOrdinal(app, apps[n - 1]);
    }
  }

  lemma SumGrows(apps: seq<AppType>, f: AppType -> nat, g: AppType -> nat, app: AppType, d: nat)
    requires InOrder(apps) && GrowsBy(f, g, app, d)
    ensures Sum(apps, g) == Sum(apps, f) + d
  {
    OneShareGrows(apps, |apps|, f, g, app, d);
  }

  lemma ShareOne(cs: seq<Connection>, c: Connection, w: Connection -> nat, app: AppType)
    ensures Share(cs + [c], w)(app) == Share(cs, w)(app) + if app == c.app then w(c) else 0
  {
    TotalOne(cs + [c], OfApp(app), w);
    assert (cs + [c])[..|cs|] == cs;
  }

  lemma SharesGrow(cs: seq<Connection>, c: Connection, w: Connection -> nat)
    ensures GrowsBy(Share(cs, w), Share(cs + [c], w), c.app, w(c))
  {
    forall a ensures Share(cs + [c], w)(a) == Share(cs, w)(a) + if a == c.app then w(c) else 0 {
      ShareOne(cs, c, w, a);
    }
  }

  lemma OverAppsOne(apps: seq<AppType>, cs: seq<Connection>, c: Connection, w: Connection -> nat)
    requires InOrder(apps)
    ensures OverApps(apps, cs + [c], w) == OverApps(apps, cs, w) + w(c)
  {
    SharesGrow(cs, c, w);
    SumGrows(apps, Share(cs, w), Share(cs + [c], w), c.app, w(c));
  }

  /** The shares of the applications add up to the whole. */
  lemma {:induction false} SharesAddUp(apps: seq<AppType>, cs: seq<Connection>, w: Connection -> nat)
    requires InOrder(apps)
    ensures OverApps(apps, cs, w) == Sum(cs, w)
  {
    if cs == [] {
      SumToIsZero(apps, |apps|, Share(cs, w));
    } else {
      var before, c := cs[..|cs| - 1], cs[|cs| - 1];
      assert cs == before + [c];
      SharesAddUp(apps, before, w);
      OverAppsOne(apps, before, c, w);
      SumOne(before, c, w);
    }
  }

  function Counts(g: Gathered): AppType -> nat {
    (app: AppType) => Get(g.distribution, app, 0)
  }

  function Flows(g: Gathered): AppType -> AppFlow {
    (app: AppType) => Get(g.flows, app, NO_FLOW)
  }

  /** Both tables of the report sum to the connections there are, and to their packets and bytes. */
  predicate AddsUp(apps: seq<AppType>, cs: seq<Connection>, g: Gathered) {
    && Sum(apps, Counts(g)) == |cs|
    && Sum(apps, (app: AppType) => Flows(g)(app).flows) == |cs|
    && Sum(apps, (app: AppType) => Flows(g)(app).packets) == Sum(cs, PACKETS)
    && Sum(apps, (app: AppType) => Flows(g)(app).bytes) == Sum(cs, BYTES)
  }

  lemma EntriesAddUp(apps: seq<AppType>, cs: seq<Connection>, f: AppType -> nat, w: Connection -> nat)
    requires InOrder(apps) && forall app :: f(app) == Total(cs, OfApp(app), w)
    ensures Sum(apps, f) == Sum(cs, w)
  {
    SharesAddUp(apps, cs, w);
    SumToPointwise(apps, |apps|, f, Share(cs, w));
  }

  lemma ReportAddsUpOver(apps: seq<AppType>, cs: seq<Connection>)
    requires InOrder(apps)
    ensures AddsUp(apps, cs, Gather(cs))
  {
    var g := Gather(cs);
    forall app ensures Counts(g)(app) == Total(cs, OfApp(app), ONE)
      && Flows(g)(app) == AppFlow(Total(cs, OfApp(app), ONE), Total(cs, OfApp(app), PACKETS), Total(cs, OfApp(app), BYTES)) {
      GatheredCounts(cs, app);
    }
    EntriesAddUp(apps, cs, Counts(g), ONE);
    EntriesAddUp(apps, cs, (app: AppType) => Flows(g)(app).flows, ONE);
    EntriesAddUp(apps, cs, (app: AppType) => Flows(g)(app).packets, PACKETS);
    EntriesAddUp(apps, cs, (app: AppType) => Flows(g)(app).bytes, BYTES);
    SumToOfOnes(cs, |cs|, ONE);
  }

  /**
   The report adds up: the applications' connection counts, in both tables, sum to the number of
   connections, and their packets and bytes to all packets and bytes.
   */
  lemma ReportAddsUp(cs: seq<Connection>)
    ensures AddsUp(ALL_APPS, cs, Gather(cs))
  {
    AppsAreInOrder();
    ReportAddsUpOver(ALL_APPS, cs);
  }

  // ---------------------------------------------------------------- the top domains

  type Ranking = seq<(string, nat)>

  function NamesIn(r: Ranking): set<string> {
    set i | 0 <= i < |r| :: r[i].0
  }

  /** Entries of the counts, none of them twice, larger ones first. */
  predicate IsRanking(r: Ranking, counts: map<string, nat>) {
    && (forall i :: 0 <= i < |r| ==> r[i].0 in counts && counts[r[i].0] == r[i].1)
    && (forall i, j :: 0 <= i < j < |r| ==> r[i].0 != r[j].0)
    && (forall i, j :: 0 <= i < j < |r| ==> r[i].1 >= r[j].1)
  }

  /** A ranking of as many entries as `limit` allows, none of which is below an omitted one. */
  ghost predicate IsTop(r: Ranking, counts: map<string, nat>, limit: nat) {
    && IsRanking(r, counts)
    && |r| == (if |counts| < limit then |counts| else limit)
    && forall d, i :: d in counts && d !in NamesIn(r) && 0 <= i < |r| ==> counts[d] <= r[i].1
  }

  method Insert(r: Ranking, counts: map<string, nat>, domain: string) returns (r': Ranking)
    requires IsRanking(r, counts) && domain in counts && domain !in NamesIn(r)
    ensures IsRanking(r', counts) && NamesIn(r') == NamesIn(r) + {domain} && |r'| == |r| + 1
  {
    var n, i := counts[domain], 0;
    while i < |r| && r[i].1 >= n
      invariant 0 <= i <= |r|
      invariant forall k :: 0 <= k < i ==> r[k].1 >= n
    {
      i := i + 1;
    }
    r' := r[..i] + [(domain, n)] + r[i..];
    InsertedNames(r, i, (domain, n));
    InsertedRanks(r, counts, i, (domain, n));
  }

  lemma InsertedNames(r: Ranking, i: nat, p: (string, nat))
    requires i <= |r|
    ensures NamesIn(r[..i] + [p] + r[i..]) == NamesIn(r) + {p.0}
  {
    var r' := r[..i] + [p] + r[i..];
    assert r'[i] == p;
    forall k | 0 <= k < |r| ensures r[k].0 in NamesIn(r') {
      assert r'[if k < i then k else k + 1] == r[k];
    }
  }

  lemma InsertedRanks(r: Ranking, counts: map<string, nat>, i: nat, p: (string, nat))
    requires IsRanking(r, counts) && i <= |r| && p.0 in counts && counts[p.0] == p.1 && p.0 !in NamesIn(r)
    requires forall k :: 0 <= k < i ==> r[k].1 >= p.1
    requires i < |r| ==> r[i].1 < p.1
    ensures IsRanking(r[..i] + [p] + r[i..], counts)
  {
  }

  /** The counts in descending order; equal ones in whatever order the sort leaves them. */
  method SortByCount(counts: map<string, nat>) returns (r: Ranking)
    ensures IsRanking(r, counts) && NamesIn(r) == counts.Keys && |r| == |counts|
  {
    r := [];
    var rest := counts.Keys;
    while rest != {}
      invariant rest <= counts.Keys && IsRanking(r, counts)
      invariant NamesIn(r) == counts.Keys - rest && |r| + |rest| == |counts.Keys|
      decreases |rest|
    {
      var d :| d in rest;
      r := Insert(r, counts, d);
      rest := rest - {d};
    }
    assert |counts.Keys| == |counts|;
  }

  method TopDomains(counts: map<string, nat>, limit: nat) returns (top: Ranking)
    ensures IsTop(top, counts, limit)
  {
    var sorted := SortByCount(counts);
    var n := if |sorted| < limit then |sorted| else limit;
    top := sorted[..n];
    assert forall k :: 0 <= k < n ==> top[k] == sorted[k] && sorted[k].0 in NamesIn(top);
    forall d, i | d in counts && d !in NamesIn(top) && 0 <= i < |top| ensures counts[d] <= top[i].1 {
      assert d in NamesIn(sorted);
      var k :| 0 <= k < |sorted| && sorted[k].0 == d;
    }
  }

  // ---------------------------------------------------------------- over all trackers

  const TOP_LIMIT := 20

  function KeysIn(order: seq<FiveTuple>): set<FiveTuple> {
    set k | k in order
  }

  /** An order in which a scan of the table may meet its keys. */
  predicate Scans(order: seq<FiveTuple>, t: Table) {
    |order| == |t| && KeysIn(order) == t.Keys
  }

  function Records(order: seq<FiveTuple>, t: Table): (cs: seq<Connection>)
    ensures |cs| == |order|
  {
    if order == [] then []
    else
      var k := order[|order| - 1];
      Records(order[..|order| - 1], t) + [Get(t, k, NewConnection(k, 0))]
  }

  lemma RecordsOne(before: seq<Connection>, order: seq<FiveTuple>, t: Table, i: nat)
    requires i < |order| && order[i] in t
    ensures before + Records(order[..i + 1], t) == before + Records(order[..i], t) + [t[order[i]]]
  {
    assert order[..i + 1][..i] == order[..i];
  }

  lemma GatherOne(cs: seq<Connection>, c: Connection)
    ensures Gather(cs + [c]) == Add(Gather(cs), c)
  {
  }

  lemma ScanOne(order: seq<FiveTuple>, k: FiveTuple)
    ensures KeysIn(order + [k]) == KeysIn(order) + {k}
  {
  }

  /** The order in which an iteration meets the table's keys: any order will do. */
  method ScanOrder(t: Table) returns (order: seq<FiveTuple>)
    ensures Scans(order, t)
  {
    order := [];
    var rest := t.Keys;
    while rest != {}
      invariant rest <= t.Keys && KeysIn(order) == t.Keys - rest && |order| + |rest| == |t.Keys|
      decreases |rest|
    {
      var k :| k in rest;
      ScanOne(order, k);
      order, rest := order + [k], rest - {k};
    }
    assert |t.Keys| == |t|;
  }

  /** `forEach` with the collecting callback. */
  method Visit(t: Table, g: Gathered, ghost before: seq<Connection>) returns (g': Gathered, ghost scanned: seq<FiveTuple>)
    requires g == Gather(before)
    ensures Scans(scanned, t) && g' == Gather(before + Records(scanned, t))
  {
    var order := ScanOrder(t);
    g', scanned := g, order;
    ghost var visited := before;
    for i := 0 to |order|
      invariant visited == before + Records(order[..i], t) && g' == Gather(visited)
    {
      assert order[i] in KeysIn(order);
      g' := Add(g', t[order[i]]);
      GatherOne(visited, t[order[i]]);
      RecordsOne(before, order, t, i);
      visited := visited + [t[order[i]]];
    }
    assert order[..|order|] == order;
  }

  datatype GlobalStats = GlobalStats(totalActive: nat, totalSeen: nat, gathered: Gathered, topDomains: Ranking)

  function TableOf(tracker: ConnectionTracker?): Table
    reads tracker
  {
    if tracker == null then map[] else tracker.connections
  }

  function SeenIn(tracker: ConnectionTracker?): nat
    reads tracker
  {
    if tracker == null then 0 else tracker.totalSeen
  }

  function TotalSeen(trackers: seq<ConnectionTracker?>, n: nat): nat
    requires n <= |trackers|
    reads trackers
  {
    if n == 0 then 0 else TotalSeen(trackers, n - 1) + SeenIn(trackers[n - 1])
  }

  /** The records met by scans of the first `n` tables. */
  function Visited(tables: seq<Table>, orders: seq<seq<FiveTuple>>, n: nat): seq<Connection>
    requires n <= |tables| && n <= |orders|
  {
    if n == 0 then [] else Visited(tables, orders, n - 1) + Records(orders[n - 1], tables[n - 1])
  }

  lemma {:induction false} VisitedFrame(tables: seq<Table>, orders: seq<seq<FiveTuple>>, more: seq<seq<FiveTuple>>, n: nat)
    requires n <= |tables| && n <= |orders|
    ensures Visited(tables, orders + more, n) == Visited(tables, orders, n)
  {
    if n > 0 {
      VisitedFrame(tables, orders, more, n - 1);
    }
  }

  lemma VisitedOne(tables: seq<Table>, orders: seq<seq<FiveTuple>>, order: seq<FiveTuple>)
    requires |orders| < |tables|
    ensures Visited(tables, orders + [order], |orders| + 1) == Visited(tables, orders, |orders|) + Records(order, tables[|orders|])
  {
    VisitedFrame(tables, orders, [order], |orders|);
  }

  /** What the trackers there are have seen, one number for each. */
  predicate ShowsSeen(trackers: seq<ConnectionTracker?>, seen: seq<nat>)
    reads trackers
  {
    |seen| == |trackers| && forall i :: 0 <= i < |seen| ==> seen[i] == if trackers[i] == null then 0 else trackers[i].totalSeen
  }

  lemma {:induction false} TotalSeenIsSum(trackers: seq<ConnectionTracker?>, seen: seq<nat>, n: nat)
    requires ShowsSeen(trackers, seen) && n <= |seen|
    ensures TotalSeen(trackers, n) == SumTo(seen, n, (k: nat) => k)
  {
    if n > 0 {
      TotalSeenIsSum(trackers, seen, n - 1);
    }
  }

  /** Scanned in whatever order, each table gives as many records as it holds. */
  lemma {:induction false} VisitedHasAll(tables: seq<Table>, orders: seq<seq<FiveTuple>>, n: nat)
    requires n <= |tables| && n <= |orders| && forall i :: 0 <= i < n ==> Scans(orders[i], tables[i])
    ensures |Visited(tables, orders, n)| == SumTo(tables, n, (t: Table) => |t|)
  {
    if n > 0 {
      VisitedHasAll(tables, orders, n - 1);
    }
  }

  /** The tables as they stand and the orders in which they are scanned. */
  ghost predicate ScansAll(trackers: seq<ConnectionTracker?>, tables: seq<Table>, orders: seq<seq<FiveTuple>>)
    reads trackers
  {
    && |tables| == |trackers| && |orders| <= |trackers|
    && (forall i :: 0 <= i < |trackers| ==> tables[i] == TableOf(trackers[i]))
    && (forall i :: 0 <= i < |orders| ==> Scans(orders[i], tables[i]))
  }

  lemma ScansNext(trackers: seq<ConnectionTracker?>, tables: seq<Table>, orders: seq<seq<FiveTuple>>, order: seq<FiveTuple>)
    requires ScansAll(trackers, tables, orders) && |orders| < |trackers| && Scans(order, tables[|orders|])
    ensures ScansAll(trackers, tables, orders + [order])
  {
  }

  /** What the pass has gathered from the first trackers. */
  ghost predicate Passed(trackers: seq<ConnectionTracker?>, tables: seq<Table>, orders: seq<seq<FiveTuple>>, active: nat, seen: nat, g: Gathered)
    reads trackers
  {
    && ScansAll(trackers, tables, orders)
    && active == |Visited(tables, orders, |orders|)| && seen == TotalSeen(trackers, |orders|)
    && g == Gather(Visited(tables, orders, |orders|))
  }

  lemma PassedNext(
    trackers: seq<ConnectionTracker?>, tables: seq<Table>, orders: seq<seq<FiveTuple>>, active: nat, seen: nat, g: Gathered,
    order: seq<FiveTuple>, g': Gathered)
    requires |orders| < |trackers| && Passed(trackers, tables, orders, active, seen, g) && Scans(order, tables[|orders|])
    requires g' == Gather(Visited(tables, orders, |orders|) + Records(order, tables[|orders|]))
    ensures Passed(trackers, tables, orders + [order], active + |order|, seen + SeenIn(trackers[|orders|]), g')
  {
    VisitedOne(tables, orders, order);
    ScansNext(trackers, tables, orders, order);
  }

  /** One tracker of the pass; a missing one is passed over. */
  method VisitNext(tracker: ConnectionTracker?, active: nat, seen: nat, g: Gathered, ghost before: seq<Connection>)
    returns (active': nat, seen': nat, g': Gathered, ghost order: seq<FiveTuple>)
    requires g == Gather(before)
    ensures Scans(order, TableOf(tracker)) && active' == active + |order| && seen' == seen + SeenIn(tracker)
    ensures g' == Gather(before + Records(order, TableOf(tracker)))
  {
    active', seen', g', order := active, seen, g, [];
    if tracker != null {
      active' := active + |tracker.connections|;
      seen' := seen + tracker.totalSeen;
      g', order := Visit(tracker.connections, g, before);
    } else {
      assert before + Records(order, TableOf(tracker)) == before;
    }
  }

  /** `getGlobalStats`: one pass over all trackers there are, in whatever order their tables are scanned. */
  method GetGlobalStats(trackers: seq<ConnectionTracker?>)
    returns (stats: GlobalStats, ghost tables: seq<Table>, ghost orders: seq<seq<FiveTuple>>)
    ensures |orders| == |trackers| && Passed(trackers, tables, orders, stats.totalActive, stats.totalSeen, stats.gathered)
    ensures AddsUp(ALL_APPS, Visited(tables, orders, |orders|), stats.gathered)
    ensures stats.totalActive == Sum(tables, (t: Table) => |t|)
    ensures forall seen :: ShowsSeen(trackers, seen) ==> stats.totalSeen == Sum(seen, (k: nat) => k)
    ensures |stats.topDomains| <= 20
    ensures IsTop(stats.topDomains, stats.gathered.domains, TOP_LIMIT)
  {
    var active, seen, g := 0, 0, NOTHING;
    orders := [];
    tables := seq(|trackers|, i requires 0 <= i < |trackers| reads trackers => TableOf(trackers[i]));
    for i := 0 to |trackers|
      invariant |orders| == i && Passed(trackers, tables, orders, active, seen, g)
    {
      ghost var active0, seen0, g0 := active, seen, g;
      ghost var order;
      active, seen, g, order := VisitNext(trackers[i], active, seen, g, Visited(tables, orders, i));
      PassedNext(trackers, tables, orders, active0, seen0, g0, order, g);
      orders := orders + [order];
    }
    var top := TopDomains(g.domains, TOP_LIMIT);
    ReportAddsUp(Visited(tables, orders, |orders|));
    VisitedHasAll(tables, orders, |orders|);
    forall seen | ShowsSeen(trackers, seen) ensures TotalSeen(trackers, |trackers|) == Sum(seen, (k: nat) => k) {
      TotalSeenIsSum(trackers, seen, |seen|);
    }
    stats := GlobalStats(active, seen, g, top);
  }
}
