/** Big-endian fields and counted fields in byte strings, and how to read back what was concatenated. */
module Bytes {
  import opened Types

  function U16(p: seq<byte>, i: nat): uint16
    requires i + 2 <= |p|
  {
    p[i] as int * 0x100 + p[i + 1] as int
  }

  predicate IsSlice(s: seq<byte>, p: seq<byte>) {
    exists i, j :: 0 <= i <= j <= |p| && s == p[i..j]
  }

  function Big16(n: uint16): (b: seq<byte>)
    ensures |b| == 2
  {
    [n / 0x100, n % 0x100]
  }

  /** A field preceded by its length in one byte, or in two. */
  function Counted8(x: seq<byte>): (b: seq<byte>)
    requires |x| < 0x100
    ensures |b| == 1 + |x|
  {
    [|x|] + x
  }

  function Counted16(x: seq<byte>): (b: seq<byte>)
    requires |x| < 0x1_0000
    ensures |b| == 2 + |x|
  {
    Big16(|x|) + x
  }

  lemma TakeOfAppend(a: seq<byte>, b: seq<byte>, n: nat)
    requires n <= |a| + |b|
    ensures (a + b)[..n] == if n < |a| then a[..n] else a + b[..n - |a|]
  {
  }

  /** `s` stands at position `i` of `p`. */
  predicate At(p: seq<byte>, i: nat, s: seq<byte>) {
    i + |s| <= |p| && p[i..i + |s|] == s
  }

  lemma AtAppend(p: seq<byte>, i: nat, a: seq<byte>, b: seq<byte>)
    requires At(p, i, a + b)
    ensures At(p, i, a) && At(p, i + |a|, b)
  {
    var whole := p[i..i + |a + b|];
    assert whole[..|a|] == a && whole[|a|..] == b;
  }

  lemma AtByte(p: seq<byte>, i: nat, n: byte, rest: seq<byte>)
    requires At(p, i, [n] + rest)
    ensures i < |p| && p[i] == n && At(p, i + 1, rest)
  {
    AtAppend(p, i, [n], rest);
    assert p[i..i + 1][0] == p[i];
  }

  lemma AtBig16(p: seq<byte>, i: nat, n: uint16, rest: seq<byte>)
    requires At(p, i, Big16(n) + rest)
    ensures i + 2 <= |p| && U16(p, i) == n && At(p, i + 2, rest)
  {
    AtAppend(p, i, Big16(n), rest);
    assert p[i..i + 2][0] == p[i] && p[i..i + 2][1] == p[i + 1];
  }

  lemma AtCounted8(p: seq<byte>, i: nat, x: seq<byte>, rest: seq<byte>)
    requires |x| < 0x100 && At(p, i, Counted8(x) + rest)
    ensures i < |p| && p[i] == |x| && At(p, i + 1 + |x|, rest)
  {
    AtAppend(p, i, Counted8(x), rest);
    AtByte(p, i, |x|, x);
  }

  lemma AtCounted16(p: seq<byte>, i: nat, x: seq<byte>, rest: seq<byte>)
    requires |x| < 0x1_0000 && At(p, i, Counted16(x) + rest)
    ensures i + 2 <= |p| && U16(p, i) == |x| && At(p, i + 2, x) && At(p, i + 2 + |x|, rest)
  {
    AtAppend(p, i, Counted16(x), rest);
    AtBig16(p, i, |x|, x);
  }
}
