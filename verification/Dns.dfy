/** The DNS question reader (section 4.1.2 of RFC 1035), against the repository's query encoder. */
module Dns {
  import opened Types
  import opened Bytes
  import opened Text

  predicate IsDnsQuery(p: seq<byte>) {
    && |p| >= 12
    && p[2] / 0x80 % 2 == 0
    && p[4] as int * 0x100 + p[5] as int != 0
  }

  /** A complete label starts at `offset`: a length from 1 to 63 and that many bytes. */
  predicate LabelAt(p: seq<byte>, offset: nat) {
    offset < |p| && 1 <= p[offset] <= 63 && offset + 1 + p[offset] as int <= |p|
  }

  function LabelBytes(p: seq<byte>, offset: nat): (b: seq<byte>)
    requires LabelAt(p, offset)
    ensures |b| == p[offset]
  {
    p[offset + 1..offset + 1 + p[offset] as int]
  }

  function AfterLabel(p: seq<byte>, offset: nat): (next: nat)
    requires LabelAt(p, offset)
    ensures offset < next <= |p|
  {
    offset + 1 + p[offset] as int
  }

  /** The complete labels from `offset` on, up to the first thing that is not one. */
  function LabelsFrom(p: seq<byte>, offset: nat): seq<string>
    decreases |p| - offset
  {
    if !LabelAt(p, offset) then []
    else [Chars(LabelBytes(p, offset))] + LabelsFrom(p, AfterLabel(p, offset))
  }

  /** The name a payload asks for, or nothing when it holds no complete label. */
  function QueryOf(p: seq<byte>): Option<string> {
    if !IsDnsQuery(p) || LabelsFrom(p, 12) == [] then None else Some(Join(LabelsFrom(p, 12), '.'))
  }

  predicate AllNonEmpty(pieces: seq<string>) {
    forall i :: 0 <= i < |pieces| ==> pieces[i] != ""
  }

  lemma {:induction false} LabelsAreNonEmpty(p: seq<byte>, offset: nat)
    ensures AllNonEmpty(LabelsFrom(p, offset))
    decreases |p| - offset
  {
    if LabelAt(p, offset) {
      LabelsAreNonEmpty(p, AfterLabel(p, offset));
    }
  }

  /**
   When there is a name to be found: the twelve header bytes, the top bit of the third clear as in no
   response, a question announced, and a complete label of 1 to 63 bytes behind the header.
   */
  lemma AnswersOnlyQueries(p: seq<byte>)
    ensures QueryOf(p).Some? <==>
      && |p| > 12 && p[2] < 0x80 && (p[4] != 0 || p[5] != 0)
      && 1 <= p[12] <= 63 && 13 + p[12] <= |p|
  {
  }

  /** The dotted text once `piece` has been read: no dot before the first piece. */
  function Extended(domain: string, piece: string): string {
    if domain == "" then piece else domain + ['.'] + piece
  }

  function ExtendedAll(domain: string, pieces: seq<string>): string
    decreases |pieces|
  {
    if pieces == [] then domain else ExtendedAll(Extended(domain, pieces[0]), pieces[1..])
  }

  /** Appending pieces one by one after a text is joining them behind it. */
  lemma {:induction false} ExtendedAllIsJoin(domain: string, pieces: seq<string>)
    requires domain != "" && AllNonEmpty(pieces)
    ensures ExtendedAll(domain, pieces) == Join([domain] + pieces, '.')
    decreases |pieces|
  {
    if pieces == [] {
      assert [domain] + pieces == [domain];
    } else {
      var first, rest := pieces[0], pieces[1..];
      ExtendedAllIsJoin(domain + ['.'] + first, rest);
      assert pieces == [first] + rest && [domain] + pieces == [domain] + ([first] + rest);
      JoinHead(domain, first, rest);
    }
  }

  lemma JoinHead(a: string, b: string, rest: seq<string>)
    ensures Join([a] + ([b] + rest), '.') == Join([a + ['.'] + b] + rest, '.')
  {
  }

  /** The text that reading on from `offset` makes of `domain`. */
  function TextFrom(p: seq<byte>, offset: nat, domain: string): string {
    ExtendedAll(domain, LabelsFrom(p, offset))
  }

  lemma TextOfQuery(p: seq<byte>)
    ensures TextFrom(p, 12, "") == if LabelsFrom(p, 12) == [] then "" else Join(LabelsFrom(p, 12), '.')
    ensures TextFrom(p, 12, "") == "" <==> LabelsFrom(p, 12) == []
  {
    var pieces := LabelsFrom(p, 12);
    LabelsAreNonEmpty(p, 12);
    if pieces != [] {
      ExtendedAllIsJoin(pieces[0], pieces[1..]);
      assert pieces == [pieces[0]] + pieces[1..];
    }
  }

  lemma TextStep(p: seq<byte>, offset: nat, domain: string)
    ensures LabelAt(p, offset) ==>
      TextFrom(p, offset, domain) == TextFrom(p, AfterLabel(p, offset), Extended(domain, Chars(LabelBytes(p, offset))))
    ensures !LabelAt(p, offset) ==> TextFrom(p, offset, domain) == domain
  {
  }

  /**
   The original's loop, which appends label after label to a string. All reads are in bounds for
   every payload and the loop ends.
   */
  method ExtractQuery(payload: seq<byte>) returns (name: Option<string>)
    ensures name == QueryOf(payload)
  {
    if !IsDnsQuery(payload) { return None; }
    var offset: nat := 12;
    var domain := "";
    ghost var text := TextFrom(payload, 12, "");
    while offset < |payload|
      invariant 12 <= offset <= |payload|
      invariant TextFrom(payload, offset, domain) == text
    {
      TextStep(payload, offset, domain);
      var labelLength := payload[offset] as int;
      if labelLength == 0 { break; }
      if labelLength > 63 { break; }
      if offset + 1 + labelLength > |payload| { break; }
      assert payload[offset + 1..offset + 1 + labelLength] == LabelBytes(payload, offset);
      domain := Extended(domain, Chars(payload[offset + 1..offset + 1 + labelLength]));
      offset := AfterLabel(payload, offset);
    }
    TextStep(payload, offset, domain);
    TextOfQuery(payload);
    return if domain == "" then None else Some(domain);
  }

  // ---------------------------------------------------------------- the repository's own encoder

  /** What the encoder takes: ASCII, with a length that fits into a byte. */
  predicate EncodableLabel(piece: string) {
    |piece| < 0x100 && Ascii(piece)
  }

  predicate Encodable(pieces: seq<string>) {
    forall i :: 0 <= i < |pieces| ==> EncodableLabel(pieces[i])
  }

  /** What the reader takes: section 2.3.4 of RFC 1035 limits a label to 63 bytes. */
  predicate ReadableLabel(piece: string) {
    1 <= |piece| <= 63
  }

  predicate Readable(pieces: seq<string>) {
    forall i :: 0 <= i < |pieces| ==> ReadableLabel(pieces[i])
  }

  predicate Ascii(s: string) {
    forall i :: 0 <= i < |s| ==> s[i] as int < 128
  }

  function AsciiBytes(s: string): (b: seq<byte>)
    requires Ascii(s)
    ensures |b| == |s|
    ensures Chars(b) == s
  {
    seq(|s|, i requires 0 <= i < |s| && Ascii(s) => s[i] as int as byte)
  }

  function EncodeLabel(piece: string): (b: seq<byte>)
    requires EncodableLabel(piece)
    ensures |b| == 1 + |piece|
  {
    Counted8(AsciiBytes(piece))
  }

  function EncodeLabels(pieces: seq<string>): seq<byte>
    requires Encodable(pieces)
  {
    if pieces == [] then [] else EncodeLabel(pieces[0]) + EncodeLabels(pieces[1..])
  }

  function QueryHeader(txid: uint16): (b: seq<byte>)
    ensures |b| == 12
  {
    Big16(txid) + [0x01, 0x00, 0, 1, 0, 0, 0, 0, 0, 0]
  }

  /** The empty root label, then type A and class IN. */
  const QUESTION_END: seq<byte> := [0] + [0, 1, 0, 1]

  /** `create_dns_query`, with the random transaction id as a parameter. */
  function CreateDnsQuery(txid: uint16, domain: string): seq<byte>
    requires Encodable(Split(domain, '.'))
  {
    QueryHeader(txid) + (EncodeLabels(Split(domain, '.')) + QUESTION_END)
  }

  lemma {:induction false} EncodeLabelsAppend(front: seq<string>, back: seq<string>)
    requires Encodable(front) && Encodable(back) && Encodable(front + back)
    ensures EncodeLabels(front + back) == EncodeLabels(front) + EncodeLabels(back)
  {
    if front == [] {
      assert front + back == back;
    } else {
      assert (front + back)[1..] == front[1..] + back;
      EncodeLabelsAppend(front[1..], back);
    }
  }

  lemma LabelIsRead(p: seq<byte>, offset: nat, piece: string, rest: seq<byte>)
    requires EncodableLabel(piece) && ReadableLabel(piece) && At(p, offset, EncodeLabel(piece) + rest)
    ensures LabelAt(p, offset) && p[offset] == |piece| && Chars(LabelBytes(p, offset)) == piece
    ensures At(p, offset + 1 + |piece|, rest)
  {
    var bytes := AsciiBytes(piece);
    AtAppend(p, offset, EncodeLabel(piece), rest);
    AtByte(p, offset, |bytes|, bytes);
  }

  lemma OneLabelRead(p: seq<byte>, offset: nat, piece: string)
    requires LabelAt(p, offset) && p[offset] == |piece| && Chars(LabelBytes(p, offset)) == piece
    ensures LabelsFrom(p, offset) == [piece] + LabelsFrom(p, offset + 1 + |piece|)
  {
  }

  /** Labels are read one by one until something follows that is not a complete label. */
  lemma {:induction false} LabelsAreRead(p: seq<byte>, offset: nat, pieces: seq<string>, end: nat)
    requires Encodable(pieces) && Readable(pieces)
    requires At(p, offset, EncodeLabels(pieces)) && end == offset + |EncodeLabels(pieces)|
    requires !LabelAt(p, end)
    ensures LabelsFrom(p, offset) == pieces
    decreases |pieces|
  {
    if pieces != [] {
      var rest := EncodeLabels(pieces[1..]);
      LabelIsRead(p, offset, pieces[0], rest);
      var later := offset + 1 + |pieces[0]|;
      LabelsAreRead(p, later, pieces[1..], end);
      OneLabelRead(p, offset, pieces[0]);
      assert pieces == [pieces[0]] + pieces[1..];
    }
  }

  lemma LengthIsRead(p: seq<byte>, offset: nat, piece: string, rest: seq<byte>)
    requires EncodableLabel(piece) && At(p, offset, EncodeLabel(piece) + rest)
    ensures offset < |p| && p[offset] == |piece|
  {
    AtAppend(p, offset, EncodeLabel(piece), rest);
    AtByte(p, offset, |piece|, AsciiBytes(piece));
  }

  /** Where the first `k` labels of an encoded name end, and what stands there. */
  lemma LabelsUpTo(p: seq<byte>, pieces: seq<string>, k: nat)
    requires Encodable(pieces) && k <= |pieces|
    requires At(p, 12, EncodeLabels(pieces) + QUESTION_END)
    ensures At(p, 12, EncodeLabels(pieces[..k]))
    ensures var end := 12 + |EncodeLabels(pieces[..k])|;
      end < |p| && p[end] == if k < |pieces| then |pieces[k]| else 0
  {
    var front, back := EncodeLabels(pieces[..k]), EncodeLabels(pieces[k..]);
    assert pieces == pieces[..k] + pieces[k..];
    EncodeLabelsAppend(pieces[..k], pieces[k..]);
    AtAppend(p, 12, front + back, QUESTION_END);
    AtAppend(p, 12, front, back);
    if k < |pieces| {
      LengthIsRead(p, 12 + |front|, pieces[k], EncodeLabels(pieces[k..][1..]));
    } else {
      assert p[12 + |front|..][0] == QUESTION_END[0];
    }
  }

  lemma OneMoreLabel(pieces: seq<string>, k: nat)
    requires Encodable(pieces) && k < |pieces|
    ensures |EncodeLabels(pieces[..k + 1])| == |EncodeLabels(pieces[..k])| + 1 + |pieces[k]|
  {
    assert pieces[..k + 1] == pieces[..k] + [pieces[k]];
    EncodeLabelsAppend(pieces[..k], [pieces[k]]);
    assert EncodeLabels([pieces[k]]) == EncodeLabel(pieces[k]) + EncodeLabels([pieces[k]][1..]);
  }

  lemma GeneratedQueryLayout(txid: uint16, domain: string)
    requires Encodable(Split(domain, '.'))
    ensures var p := CreateDnsQuery(txid, domain);
      At(p, 12, EncodeLabels(Split(domain, '.')) + QUESTION_END) && p[2] == 1 && p[4] == 0 && p[5] == 1
  {
  }

  /**
   The DNS round trip under truncation: cut anywhere after the header, a generated query yields the
   join of those leading labels that are complete and can be read, or nothing when there is none.
   */
  lemma TruncatedQueryRoundTrip(txid: uint16, domain: string, n: nat, k: nat)
    requires Encodable(Split(domain, '.')) && 12 <= n <= |CreateDnsQuery(txid, domain)|
    requires k <= |Split(domain, '.')| && Readable(Split(domain, '.')[..k])
    requires 12 + |EncodeLabels(Split(domain, '.')[..k])| <= n
    requires k < |Split(domain, '.')| ==>
      !ReadableLabel(Split(domain, '.')[k]) || n < 12 + |EncodeLabels(Split(domain, '.')[..k + 1])|
    ensures QueryOf(CreateDnsQuery(txid, domain)[..n]) ==
      if k == 0 then None else Some(Join(Split(domain, '.')[..k], '.'))
  {
    var pieces, whole := Split(domain, '.'), CreateDnsQuery(txid, domain);
    var front := EncodeLabels(pieces[..k]);
    GeneratedQueryLayout(txid, domain);
    LabelsUpTo(whole, pieces, k);
    if k < |pieces| {
      OneMoreLabel(pieces, k);
    }
    CutQuery(whole, n, pieces[..k], 12 + |front|);
  }

  lemma CutQuery(whole: seq<byte>, n: nat, front: seq<string>, end: nat)
    requires Encodable(front) && Readable(front) && end == 12 + |EncodeLabels(front)| <= n <= |whole|
    requires whole[2] == 1 && whole[4] == 0 && whole[5] == 1
    requires At(whole, 12, EncodeLabels(front))
    requires end < |whole| && (whole[end] == 0 || whole[end] > 63 || n < end + 1 + whole[end])
    ensures QueryOf(whole[..n]) == if front == [] then None else Some(Join(front, '.'))
  {
    var p := whole[..n];
    assert p[12..end] == whole[12..end];
    LabelsAreRead(p, 12, front, end);
  }

  /** How many leading labels can be read. */
  lemma {:induction false} LeadingLabels(pieces: seq<string>) returns (k: nat)
    ensures k <= |pieces| && Readable(pieces[..k]) && (k < |pieces| ==> !ReadableLabel(pieces[k]))
  {
    k := 0;
    while k < |pieces| && ReadableLabel(pieces[k])
      invariant k <= |pieces| && Readable(pieces[..k])
    {
      k := k + 1;
    }
  }

  lemma FewerLabelsAreShorter(pieces: seq<string>, k: nat)
    requires 1 <= k < |pieces|
    ensures |Join(pieces[..k], '.')| < |Join(pieces, '.')|
  {
    JoinAppend(pieces[..k], pieces[k..], '.');
    assert pieces == pieces[..k] + pieces[k..];
  }

  lemma PrefixLength(pieces: seq<string>, k: nat)
    requires Encodable(pieces) && k <= |pieces|
    ensures |EncodeLabels(pieces[..k])| <= |EncodeLabels(pieces)|
  {
    EncodeLabelsAppend(pieces[..k], pieces[k..]);
    assert pieces == pieces[..k] + pieces[k..];
  }

  /**
   A whole generated query is read back to the name it was made for exactly when every label has 1 to
   63 characters. The encoder itself also takes empty and longer labels.
   */
  lemma QueryRoundTrip(txid: uint16, domain: string)
    requires Encodable(Split(domain, '.'))
    ensures QueryOf(CreateDnsQuery(txid, domain)) == Some(domain) <==> Readable(Split(domain, '.'))
  {
    var pieces, whole := Split(domain, '.'), CreateDnsQuery(txid, domain);
    var k := LeadingLabels(pieces);
    assert pieces[..|pieces|] == pieces && whole[..|whole|] == whole;
    PrefixLength(pieces, k);
    TruncatedQueryRoundTrip(txid, domain, |whole|, k);
    JoinSplit(domain, '.');
    if 1 <= k < |pieces| {
      FewerLabelsAreShorter(pieces, k);
    }
  }
}
