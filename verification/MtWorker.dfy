/** The multi-threaded engine's rules and fast path as the objects they are, against the flow model. */
module MtWorker {
  import opened Types
  import opened IpText
  import opened AppNames
  import opened MtStreams
  import opened MtFlows
  import TlsSni
  import HttpHost

  // ---------------------------------------------------------------- rules

  /** `std::string::find`: whether the text has the part anywhere. */
  method Find(s: string, part: string) returns (found: bool)
    ensures found == Contains(s, part)
  {
    var i := 0;
    while i <= |s|
      invariant 0 <= i <= |s| + 1
      invariant forall k :: 0 <= k < i ==> !(part <= s[k..])
    {
      if part <= s[i..] {
        return true;
      }
      i := i + 1;
    }
    found := false;
  }

  class BlockRules {
    var blockedIps: set<uint32>
    var blockedApps: set<AppType>
    var blockedDomains: seq<string>

    function View(): RuleBook
      reads this
    {
      RuleBook(blockedIps, blockedApps, blockedDomains)
    }

    constructor ()
      ensures View() == RuleBook({}, {}, [])
    {
      blockedIps, blockedApps, blockedDomains := {}, {}, [];
    }

    method BlockIp(text: string)
      requires ParseIP(text).Some?
      modifies this
      ensures View() == old(View()).(ips := old(View()).ips + {ParseIP(text).value})
      ensures Extends(View(), old(View()))
    {
      var ip := ParseIPLoop(text);
      blockedIps := blockedIps + {ip.value};
    }

    /** An unknown name changes nothing. */
    method BlockApp(name: string)
      modifies this
      ensures var app := AppNamed(name);
        View() == if app.None? then old(View()) else old(View()).(apps := old(View()).apps + {app.value})
      ensures Extends(View(), old(View()))
    {
      var app := FindApp(name);
      NamesIsUnique(name, app);
      if app.Some? {
        blockedApps := blockedApps + {app.value};
      }
    }

    method BlockDomain(domain: string)
      modifies this
      ensures View() == old(View()).(domains := old(View()).domains + [domain])
      ensures Extends(View(), old(View()))
    {
      blockedDomains := blockedDomains + [domain];
    }

    method Blocked(srcIp: uint32, app: AppType, sni: string) returns (blocked: bool)
      ensures blocked == IsBlocked(View(), srcIp, app, sni)
    {
      if srcIp in blockedIps {
        return true;
      }
      if app in blockedApps {
        return true;
      }
      for i := 0 to |blockedDomains|
        invariant forall k :: 0 <= k < i ==> !Contains(sni, blockedDomains[k])
      {
        var found := Find(sni, blockedDomains[i]);
        if found {
          return true;
        }
      }
      blocked := false;
    }
  }

  // ---------------------------------------------------------------- the fast path

  /** Counting and classifying leave the flag alone. */
  lemma RecognisedKeepsBlocked(names: Names, p: Packet, f: FlowEntry)
    ensures Recognised(names, p, f).blocked == f.blocked
  {
  }

  /** Table, counters and application counts are those of one pass over the packets handled. */
  ghost predicate IsPass(h: Handler, handled: seq<Packet>, flows: Flows, forwarded: nat, dropped: nat, apps: multiset<AppType>) {
    && flows == FlowsAfter(h, handled)
    && forwarded == |Forwarded(h, handled)| && dropped == |Dropped(h, handled)|
    && forall app :: apps[app] == CountedFor(h, handled, app)
  }

  lemma PassGoesOn(h: Handler, handled: seq<Packet>, p: Packet, flows: Flows, forwarded: nat, dropped: nat, apps: multiset<AppType>)
    requires IsPass(h, handled, flows, forwarded, dropped, apps)
    ensures var entry := Handled(h, flows, p);
      IsPass(h, handled + [p], flows[p.tuple := entry],
             forwarded + if entry.blocked then 0 else 1, dropped + if entry.blocked then 1 else 0, apps + multiset{entry.app})
  {
    PassOne(h, handled, p);
    forall app ensures (apps + multiset{Handled(h, flows, p).app})[app] == CountedFor(h, handled + [p], app) {
      CountedForOne(h, handled, p, app);
    }
  }

  class FastPath {
    const rules: BlockRules
    const names: Names
    /** The rules as they are while the engine runs. */
    ghost const book: RuleBook
    var flows: Flows
    var processed: nat
    var forwarded: nat
    var dropped: nat
    /** `app_counts`, as far as this worker adds to them: the count of an application is its multiplicity. */
    var apps: multiset<AppType>
    ghost var handled: seq<Packet>

    ghost function Handler(): Handler {
      Worker(book, names)
    }

    /** The table and the counters are those of one pass over all packets handled so far. */
    ghost predicate Valid()
      reads this, rules
    {
      && rules.View() == book
      && processed == |handled| && IsPass(Handler(), handled, flows, forwarded, dropped, apps)
    }

    constructor (rules: BlockRules, names: Names)
      ensures Valid() && this.rules == rules && this.names == names && handled == []
    {
      this.rules, this.names, book := rules, names, rules.View();
      flows, processed, forwarded, dropped, apps, handled := map[], 0, 0, 0, multiset{}, [];
    }

    /** Writes what the payload or the ports say into the flow's entry. */
    method ClassifyFlow(p: Packet)
      requires p.tuple in flows
      modifies this`flows
      ensures flows == old(flows)[p.tuple := Classify(names, p, old(flows)[p.tuple])]
    {
      var flow := flows[p.tuple];
      if p.tuple.dstPort == 443 && p.payloadLength > 5 {
        var sni := TlsSni.Extract(Payload(p));
        if sni.Some? {
          flows := flows[p.tuple := flow.(sni := sni.value, app := names(sni.value), classified := true)];
          return;
        }
      }
      if p.tuple.dstPort == 80 && p.payloadLength > 10 {
        var host := HttpHost.Extract(Payload(p));
        if host.Some? {
          flows := flows[p.tuple := flow.(sni := host.value, app := names(host.value), classified := true)];
          return;
        }
      }
      if p.tuple.dstPort == 53 || p.tuple.srcPort == 53 {
        flows := flows[p.tuple := flow.(app := DNS, classified := true)];
        return;
      }
      if p.tuple.dstPort == 443 {
        flows := flows[p.tuple := flow.(app := HTTPS)];
      } else if p.tuple.dstPort == 80 {
        flows := flows[p.tuple := flow.(app := HTTP)];
      }
    }

    /** The entry is looked up or made, counted and classified. */
    method Recognise(p: Packet)
      modifies this`flows
      ensures flows == old(flows)[p.tuple := Recognised(names, p, Lookup(old(flows), p.tuple))]
    {
      var flow := Lookup(flows, p.tuple);
      if flow.packets == 0 {
        flow := flow.(tuple := p.tuple);
      }
      flow := flow.(packets := flow.packets + 1, bytes := flow.bytes + |p.data|);
      flows := flows[p.tuple := flow];
      if !flow.classified {
        ClassifyFlow(p);
      }
    }

    /** A flow that is not blocked yet is checked against the rules. */
    method CheckBlocking(p: Packet)
      requires p.tuple in flows && rules.View() == book
      modifies this`flows
      ensures var f := old(flows)[p.tuple];
        flows == old(flows)[p.tuple := f.(blocked := f.blocked || IsBlocked(book, p.tuple.srcIp, f.app, f.sni))]
    {
      var flow := flows[p.tuple];
      if !flow.blocked {
        var blocked := rules.Blocked(p.tuple.srcIp, flow.app, flow.sni);
        flows := flows[p.tuple := flow.(blocked := blocked)];
      }
    }

    method UpdateFlow(p: Packet)
      requires rules.View() == book
      modifies this`flows
      ensures flows == old(flows)[p.tuple := Handled(Handler(), old(flows), p)]
    {
      Recognise(p);
      RecognisedKeepsBlocked(names, p, Lookup(old(flows), p.tuple));
      CheckBlocking(p);
    }

    method RecordApp(app: AppType)
      modifies this`apps
      ensures apps == old(apps) + multiset{app}
    {
      apps := apps[app := apps[app] + 1];
    }

    /** One packet of the loop: whether it is pushed on to the output. */
    method HandlePacket(p: Packet) returns (forward: bool)
      requires Valid()
      modifies this
      ensures Valid() && handled == old(handled) + [p]
      ensures forward == Passes(Handler(), old(handled), p)
    {
      PassGoesOn(Handler(), handled, p, flows, forwarded, dropped, apps);
      processed := processed + 1;
      UpdateFlow(p);
      RecordApp(flows[p.tuple].app);
      forward := !flows[p.tuple].blocked;
      if forward {
        forwarded := forwarded + 1;
      } else {
        dropped := dropped + 1;
      }
      handled := handled + [p];
    }

    /** The loop over the packets it is given: out comes what the model forwards. */
    method Run(ps: seq<Packet>) returns (out: seq<Packet>)
      requires Valid() && handled == []
      modifies this
      ensures Valid() && handled == ps && out == Forwarded(Handler(), ps)
    {
      out := [];
      for i := 0 to |ps|
        invariant Valid() && handled == ps[..i] && out == Forwarded(Handler(), ps[..i])
      {
        var forward := HandlePacket(ps[i]);
        PassOne(Handler(), ps[..i], ps[i]);
        assert ps[..i + 1] == ps[..i] + [ps[i]];
        if forward {
          out := out + [ps[i]];
        }
      }
      assert ps[..|ps|] == ps;
    }
  }

  // ---------------------------------------------------------------- which worker

  /** The reader's choice of balancer and the balancer's choice of worker, each from the same hash. */
  method ChooseWorker(std: StdHash, t: FiveTuple, lbs: nat, fpsPerLb: nat) returns (lb: nat, fp: nat)
    requires lbs > 0 && fpsPerLb > 0
    ensures lb == Hash(std, t) % lbs && fp == Hash(std, t) % fpsPerLb
    ensures lb == Hash(std, t.Reverse()) % lbs && fp == Hash(std, t.Reverse()) % fpsPerLb
  {
    HashIsSymmetric(std, t);
    var h := FiveTupleHash(std, t);
    var n: nat := h as nat;
    assert n == Hash(std, t);
    lb, fp := n % lbs, n % fpsPerLb;
  }

  /** The constructors' loops: balancer `lb` is handed the workers from `lb * fpsPerLb` on. */
  method Partition(lbs: nat, fpsPerLb: nat) returns (served: seq<seq<nat>>)
    ensures |served| == lbs
    ensures forall lb :: 0 <= lb < lbs ==> |served[lb]| == fpsPerLb
    ensures forall lb, i :: 0 <= lb < lbs && 0 <= i < fpsPerLb ==> served[lb][i] == lb * fpsPerLb + i
  {
    served := [];
    for lb := 0 to lbs
      invariant |served| == lb
      invariant forall k :: 0 <= k < lb ==> |served[k]| == fpsPerLb
      invariant forall k, i :: 0 <= k < lb && 0 <= i < fpsPerLb ==> served[k][i] == k * fpsPerLb + i
    {
      var start: nat, own: seq<nat> := lb * fpsPerLb, [];
      for i := 0 to fpsPerLb
        invariant |own| == i && forall k :: 0 <= k < i ==> own[k] == start + k
      {
        own := own + [start + i];
      }
      served := served + [own];
    }
  }
}
