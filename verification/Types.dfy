/** Values shared by both engines: integer widths, five-tuples and their hash, application types. */
module Types {
  datatype Option<+T> = None | Some(value: T)

  type byte = x: int | 0 <= x < 0x100
  type uint16 = x: int | 0 <= x < 0x1_0000
  type uint32 = x: int | 0 <= x < 0x1_0000_0000

  const TCP: byte := 6
  const UDP: byte := 17

  datatype FiveTuple = FiveTuple(srcIp: uint32, dstIp: uint32, srcPort: uint16, dstPort: uint16, protocol: byte) {
    function Reverse(): FiveTuple {
      FiveTuple(dstIp, srcIp, dstPort, srcPort, protocol)
    }

    /** The source endpoint is the larger one, so the canonical form is the reverse. */
    predicate Descending() {
      srcIp > dstIp || (srcIp == dstIp && srcPort > dstPort)
    }

    function Canonical(): FiveTuple {
      if Descending() then Reverse() else this
    }
  }

  /** Two tuples share a canonical form exactly when they are the two directions of one flow. */
  lemma CanonicalIdentifiesFlow(a: FiveTuple, b: FiveTuple)
    ensures a.Canonical() == b.Canonical() <==> a == b || a == b.Reverse()
    ensures a.Canonical().Canonical() == a.Canonical()
  {
  }

  /** And so exactly when they have the protocol and the two endpoints in common, in whatever order. */
  lemma CanonicalForgetsDirection(a: FiveTuple, b: FiveTuple)
    ensures a.Canonical() == b.Canonical() <==>
      && a.protocol == b.protocol
      && multiset{(a.srcIp, a.srcPort), (a.dstIp, a.dstPort)} == multiset{(b.srcIp, b.srcPort), (b.dstIp, b.dstPort)}
  {
    var src, dst := (a.srcIp, a.srcPort), (a.dstIp, a.dstPort);
    var ends := multiset{(b.srcIp, b.srcPort), (b.dstIp, b.dstPort)};
    if multiset{src, dst} == ends {
      assert src in ends && dst in ends && ends[src] == multiset{src, dst}[src];
    }
  }

  /** `std::hash` of the three field widths; nothing is known of it but that it is a function. */
  datatype StdHash = StdHash(of32: uint32 -> bv64, of16: uint16 -> bv64, of8: byte -> bv64)

  function Mix(h: bv64, v: bv64): bv64 {
    h ^ (v + 0x9e3779b9 + (h << 6) + (h >> 2))
  }

  /** The hash of a flow: the fields of its canonical tuple mixed in order, in 64-bit wrap-around arithmetic. */
  function TupleHash(std: StdHash, t: FiveTuple): bv64 {
    var c := t.Canonical();
    var ips := Mix(Mix(0, std.of32(c.srcIp)), std.of32(c.dstIp));
    var ports := Mix(Mix(ips, std.of16(c.srcPort)), std.of16(c.dstPort));
    Mix(ports, std.of8(c.protocol))
  }

  /** The hash as the number that is reduced modulo the worker counts. */
  function Hash(std: StdHash, t: FiveTuple): nat {
    TupleHash(std, t) as nat
  }

  /** The original's own steps: swap the endpoints in local variables, then fold the fields into `h`. */
  method FiveTupleHash(std: StdHash, t: FiveTuple) returns (h: bv64)
    ensures h == TupleHash(std, t)
    ensures h == TupleHash(std, t.Reverse())
  {
    var ip1, ip2, port1, port2 := t.srcIp, t.dstIp, t.srcPort, t.dstPort;
    if ip1 > ip2 || (ip1 == ip2 && port1 > port2) {
      ip1, ip2 := ip2, ip1;
      port1, port2 := port2, port1;
    }
    h := 0;
    h := Mix(h, std.of32(ip1));
    h := Mix(h, std.of32(ip2));
    h := Mix(h, std.of16(port1));
    h := Mix(h, std.of16(port2));
    h := Mix(h, std.of8(t.protocol));
    HashIsSymmetric(std, t);
  }

  /** Both directions of a flow hash alike, whatever `std::hash` is. */
  lemma HashIsSymmetric(std: StdHash, t: FiveTuple)
    ensures TupleHash(std, t.Reverse()) == TupleHash(std, t)
    ensures Hash(std, t) == Hash(std, t.Canonical()) == Hash(std, t.Reverse())
  {
    CanonicalIdentifiesFlow(t, t.Reverse());
    CanonicalIdentifiesFlow(t, t.Canonical());
  }

  /** `std::hash` as it is on the usual platforms: small numbers are left as they are. */
  predicate KeepsSmallNumbers(std: StdHash) {
    && std.of32(1) == 1 && std.of32(2) == 2 && std.of32(7) == 7
    && std.of16(3) == 3 && std.of16(4) == 4 && std.of16(7) == 7
    && std.of8(6) == 6 && std.of8(17) == 17
  }

  /** Worked hashes: the smaller endpoint first, and each of the five fields changes the outcome. */
  lemma HashOfSamples(std: StdHash)
    requires KeepsSmallNumbers(std)
    ensures TupleHash(std, FiveTuple(2, 1, 4, 3, 6)) == 0xa3b7d45ee9dc9d
    ensures TupleHash(std, FiveTuple(7, 2, 4, 3, 6)) == 0xa3b7d46265187f
    ensures TupleHash(std, FiveTuple(7, 1, 4, 3, 6)) == 0xa3b7d45ef42acb
    ensures TupleHash(std, FiveTuple(2, 1, 4, 7, 6)) == 0xa3b7d45ee81d25
    ensures TupleHash(std, FiveTuple(2, 1, 7, 3, 6)) == 0xa3b7d45ee9c3e7
    ensures TupleHash(std, FiveTuple(2, 1, 4, 3, 17)) == 0xa3b7d45ee9dca8
  {
  }

  datatype AppType =
    | UNKNOWN | HTTP | HTTPS | DNS | TLS | QUIC
    | GOOGLE | FACEBOOK | YOUTUBE | TWITTER | INSTAGRAM | NETFLIX | AMAZON | MICROSOFT | APPLE
    | WHATSAPP | TELEGRAM | TIKTOK | SPOTIFY | ZOOM | DISCORD | GITHUB | CLOUDFLARE

  /** The characters of a byte string, as the original's cast from `uint8_t*` to `char*` reads them. */
  function Chars(bytes: seq<byte>): (s: string)
    ensures |s| == |bytes|
    ensures forall i :: 0 <= i < |s| ==> s[i] as int == bytes[i]
  {
    seq(|bytes|, i requires 0 <= i < |bytes| => bytes[i] as char)
  }
}
