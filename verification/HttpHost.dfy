/** The HTTP Host header reader: the first "host:" with a non-empty rest of line, wherever it stands. */
module HttpHost {
  import opened Types
  import opened Bytes
  import opened Text

  const TAB: byte := 9
  const LF: byte := 10
  const CR: byte := 13
  const SPACE: byte := 32
  const COLON: byte := 58

  predicate IsHttpRequest(p: seq<byte>) {
    |p| >= 4 && Chars(p[..4]) in {"GET ", "POST", "PUT ", "HEAD", "DELE", "PATC", "OPTI"}
  }

  /** "host:" in either case of each letter stands at `i`. */
  predicate HostHeaderAt(p: seq<byte>, i: nat) {
    && i + 5 <= |p|
    && (p[i] == 72 || p[i] == 104)
    && (p[i + 1] == 79 || p[i + 1] == 111)
    && (p[i + 2] == 83 || p[i + 2] == 115)
    && (p[i + 3] == 84 || p[i + 3] == 116)
    && p[i + 4] == COLON
  }

  function SkipBlanks(p: seq<byte>, i: nat): (r: nat)
    requires i <= |p|
    ensures i <= r <= |p|
    decreases |p| - i
  {
    if i < |p| && (p[i] == SPACE || p[i] == TAB) then SkipBlanks(p, i + 1) else i
  }

  function LineEnd(p: seq<byte>, i: nat): (r: nat)
    requires i <= |p|
    ensures i <= r <= |p|
    decreases |p| - i
  {
    if i < |p| && p[i] != CR && p[i] != LF then LineEnd(p, i + 1) else i
  }

  function UntilColon(s: seq<byte>): seq<byte> {
    if s == [] || s[0] == COLON then [] else [s[0]] + UntilColon(s[1..])
  }

  /** The header's value at `i`: the rest of its line after blanks; it counts when it is not empty. */
  function ValueAt(p: seq<byte>, i: nat): Option<seq<byte>>
    requires i + 5 <= |p|
  {
    var start := SkipBlanks(p, i + 5);
    var end := LineEnd(p, start);
    if HostHeaderAt(p, i) && end > start then Some(UntilColon(p[start..end])) else None
  }

  function HostFrom(p: seq<byte>, i: nat): Option<seq<byte>>
    decreases |p| - i
  {
    if i + 6 >= |p| then None
    else if ValueAt(p, i).Some? then ValueAt(p, i)
    else HostFrom(p, i + 1)
  }

  function HostOf(p: seq<byte>): Option<seq<byte>> {
    if IsHttpRequest(p) then HostFrom(p, 0) else None
  }

  /** The port, if there is one, is cut off. */
  method BeforeColon(text: seq<byte>) returns (r: seq<byte>)
    ensures r == UntilColon(text)
  {
    var colon := 0;
    while colon < |text| && text[colon] != COLON
      invariant 0 <= colon <= |text|
      invariant UntilColon(text) == text[..colon] + UntilColon(text[colon..])
    {
      assert text[colon..][1..] == text[colon + 1..];
      assert text[..colon + 1] == text[..colon] + [text[colon]];
      colon := colon + 1;
    }
    assert UntilColon(text[colon..]) == [];
    r := text[..colon];
    assert r + [] == r;
  }

  /** The value of the header at `i`, read by two scans. */
  method ReadValue(payload: seq<byte>, i: nat) returns (host: Option<string>)
    requires HostHeaderAt(payload, i)
    ensures host == match ValueAt(payload, i) case Some(h) => Some(Chars(h)) case None => None
  {
    var start := i + 5;
    while start < |payload| && (payload[start] == SPACE || payload[start] == TAB)
      invariant i + 5 <= start <= |payload|
      invariant SkipBlanks(payload, start) == SkipBlanks(payload, i + 5)
    {
      start := start + 1;
    }
    var end := start;
    while end < |payload| && payload[end] != CR && payload[end] != LF
      invariant start <= end <= |payload|
      invariant LineEnd(payload, end) == LineEnd(payload, start)
    {
      end := end + 1;
    }
    if end <= start { return None; }
    var text := BeforeColon(payload[start..end]);
    return Some(Chars(text));
  }

  /** The original's scan; every read is in bounds for every payload, and the loops end. */
  method Extract(payload: seq<byte>) returns (host: Option<string>)
    ensures host == match HostOf(payload) case Some(h) => Some(Chars(h)) case None => None
  {
    if !IsHttpRequest(payload) { return None; }
    var i := 0;
    while i + 6 < |payload|
      invariant HostFrom(payload, i) == HostOf(payload)
    {
      if HostHeaderAt(payload, i) {
        host := ReadValue(payload, i);
        if host.Some? { return; }
      }
      i := i + 1;
    }
    return None;
  }

  // ---------------------------------------------------------------- the repository's own encoder

  /** `GET <path> HTTP/1.1`, the Host header, and the fixed headers after it. */
  function CreateHttpRequest(requestLine: seq<byte>, host: seq<byte>, others: seq<byte>): seq<byte> {
    requestLine + ([72, 111, 115, 116, COLON, SPACE] + (host + ([CR, LF] + others)))
  }

  /** A host a header line can carry unchanged: no blank in front, no port, no line break. */
  predicate PlainHost(host: seq<byte>) {
    && host != []
    && host[0] != SPACE && host[0] != TAB
    && forall i :: 0 <= i < |host| ==> host[i] != CR && host[i] != LF && host[i] != COLON
  }

  lemma {:induction false} NoValueBefore(p: seq<byte>, i: nat, j: nat)
    requires i <= j && j + 6 < |p|
    requires forall k :: i <= k < j ==> !HostHeaderAt(p, k)
    ensures HostFrom(p, i) == HostFrom(p, j)
    decreases j - i
  {
    if i < j {
      NoValueBefore(p, i + 1, j);
    }
  }

  lemma {:induction false} LineEndIs(p: seq<byte>, i: nat, j: nat)
    requires i <= j < |p| && (p[j] == CR || p[j] == LF)
    requires forall k :: i <= k < j ==> p[k] != CR && p[k] != LF
    ensures LineEnd(p, i) == j
    decreases j - i
  {
    if i < j {
      LineEndIs(p, i + 1, j);
    }
  }

  /** What a header line may carry behind the host: nothing, or a colon and any text, a port as a rule. */
  predicate PlainPort(tail: seq<byte>) {
    && (tail != [] ==> tail[0] == COLON)
    && forall i :: 0 <= i < |tail| ==> tail[i] != CR && tail[i] != LF
  }

  lemma {:induction false} PortIsCutOff(s: seq<byte>, tail: seq<byte>)
    requires PlainPort(tail) && forall i :: 0 <= i < |s| ==> s[i] != COLON
    ensures UntilColon(s + tail) == s
  {
    if s == [] {
      assert s + tail == tail;
    } else {
      PortIsCutOff(s[1..], tail);
      assert (s + tail)[1..] == s[1..] + tail;
      assert s == [s[0]] + s[1..];
    }
  }

  /** A generated request yields its host without the port, provided its request line holds no "host:" of its own. */
  lemma RequestWithPortRoundTrip(requestLine: seq<byte>, host: seq<byte>, tail: seq<byte>, others: seq<byte>)
    requires PlainHost(host) && PlainPort(tail) && IsHttpRequest(requestLine)
    requires forall k :: 0 <= k < |requestLine| ==> !HostHeaderAt(CreateHttpRequest(requestLine, host + tail, others), k)
    ensures HostOf(CreateHttpRequest(requestLine, host + tail, others)) == Some(host)
  {
    var p, i, value := CreateHttpRequest(requestLine, host + tail, others), |requestLine|, host + tail;
    var header: seq<byte> := [72, 111, 115, 116, COLON, SPACE];
    assert p[..4] == requestLine[..4];
    assert [CR, LF] + others == [CR] + ([LF] + others);
    assert At(p, i, header + (value + ([CR, LF] + others)));
    assert OnOneLine(value);
    HeaderIsRead(p, i, value, others);
    PortIsCutOff(host, tail);
    NoValueBefore(p, 0, i);
  }

  lemma RequestRoundTrip(requestLine: seq<byte>, host: seq<byte>, others: seq<byte>)
    requires PlainHost(host) && IsHttpRequest(requestLine)
    requires forall k :: 0 <= k < |requestLine| ==> !HostHeaderAt(CreateHttpRequest(requestLine, host, others), k)
    ensures HostOf(CreateHttpRequest(requestLine, host, others)) == Some(host)
  {
    assert host + [] == host;
    RequestWithPortRoundTrip(requestLine, host, [], others);
  }

  /** A value that a header line can carry. */
  predicate OnOneLine(value: seq<byte>) {
    && value != [] && value[0] != SPACE && value[0] != TAB
    && forall k :: 0 <= k < |value| ==> value[k] != CR && value[k] != LF
  }

  lemma ValueIsRead(p: seq<byte>, i: nat, value: seq<byte>)
    requires HostHeaderAt(p, i) && i + 6 + |value| < |p| && p[i + 5] == SPACE
    requires OnOneLine(value) && p[i + 6..i + 6 + |value|] == value && p[i + 6 + |value|] == CR
    ensures ValueAt(p, i) == Some(UntilColon(value))
  {
    var start, end := i + 6, i + 6 + |value|;
    assert forall k :: start <= k < end ==> p[k] == value[k - start];
    assert p[start] == value[0];
    assert SkipBlanks(p, start) == start;
    LineEndIs(p, start, end);
  }

  lemma HeaderStands(p: seq<byte>, i: nat)
    requires At(p, i, [72, 111, 115, 116, COLON, SPACE])
    ensures i + 6 <= |p| && HostHeaderAt(p, i) && p[i + 5] == SPACE
  {
    var six := p[i..i + 6];
    assert six[0] == p[i] && six[1] == p[i + 1] && six[2] == p[i + 2] && six[3] == p[i + 3] && six[4] == p[i + 4] && six[5] == p[i + 5];
  }

  lemma HeaderIsRead(p: seq<byte>, i: nat, value: seq<byte>, others: seq<byte>)
    requires OnOneLine(value) && At(p, i, [72, 111, 115, 116, COLON, SPACE] + (value + ([CR] + ([LF] + others))))
    ensures ValueAt(p, i) == Some(UntilColon(value))
  {
    AtAppend(p, i, [72, 111, 115, 116, COLON, SPACE], value + ([CR] + ([LF] + others)));
    HeaderStands(p, i);
    AtAppend(p, i + 6, value, [CR] + ([LF] + others));
    AtByte(p, i + 6 + |value|, CR, [LF] + others);
    ValueIsRead(p, i, value);
  }

  /** The request line for the path that the generator takes unless told otherwise, `GET / HTTP/1.1`. */
  const DEFAULT_LINE: seq<byte> := [71, 69, 84, SPACE, 47, SPACE, 72, 84, 84, 80, 47, 49, 46, 49, CR, LF]

  lemma DefaultLineHasNoHost(value: seq<byte>, others: seq<byte>)
    ensures IsHttpRequest(DEFAULT_LINE)
    ensures forall k :: 0 <= k < |DEFAULT_LINE| ==> !HostHeaderAt(CreateHttpRequest(DEFAULT_LINE, value, others), k)
  {
    var p := CreateHttpRequest(DEFAULT_LINE, value, others);
    assert forall k :: 0 <= k < 16 ==> p[k] == DEFAULT_LINE[k];
    assert Chars(DEFAULT_LINE[..4]) == "GET ";
    forall k | 0 <= k < |DEFAULT_LINE| ensures !HostHeaderAt(p, k) {
      assert p[k] != 104 && (p[k] == 72 ==> p[k + 1] == 84);
    }
  }

  lemma DefaultRequestRoundTrip(host: seq<byte>, others: seq<byte>)
    requires PlainHost(host)
    ensures HostOf(CreateHttpRequest(DEFAULT_LINE, host, others)) == Some(host)
  {
    DefaultLineHasNoHost(host, others);
    RequestRoundTrip(DEFAULT_LINE, host, others);
  }

  /** `Host: a:80` is read as `a`, for every plain host and whatever follows the colon. */
  lemma DefaultRequestWithPortRoundTrip(host: seq<byte>, port: seq<byte>, others: seq<byte>)
    requires PlainHost(host) && forall i :: 0 <= i < |port| ==> port[i] != CR && port[i] != LF
    ensures HostOf(CreateHttpRequest(DEFAULT_LINE, host + [COLON] + port, others)) == Some(host)
  {
    assert host + [COLON] + port == host + ([COLON] + port);
    DefaultLineHasNoHost(host + ([COLON] + port), others);
    RequestWithPortRoundTrip(DEFAULT_LINE, host, [COLON] + port, others);
  }

  // ---------------------------------------------------------------- on any payload

  /** The search looks at every place that leaves room for a header and one byte of value. */
  predicate ValueStandsAt(p: seq<byte>, i: nat, host: seq<byte>) {
    i + 6 < |p| && ValueAt(p, i) == Some(host)
  }

  ghost predicate FirstValueAt(p: seq<byte>, from: nat, i: nat, host: seq<byte>) {
    from <= i && ValueStandsAt(p, i, host) && forall k :: from <= k < i ==> ValueAt(p, k) == None
  }

  ghost predicate HasFirstValue(p: seq<byte>, from: nat, host: seq<byte>) {
    exists i :: FirstValueAt(p, from, i, host)
  }

  /** Where no value stands, the first one is the first one further on. */
  lemma FirstValueLater(p: seq<byte>, from: nat, host: seq<byte>)
    requires from + 6 < |p| && ValueAt(p, from) == None
    ensures HasFirstValue(p, from, host) <==> HasFirstValue(p, from + 1, host)
  {
    if i :| FirstValueAt(p, from, i, host) {
      assert FirstValueAt(p, from + 1, i, host);
    }
    if HasFirstValue(p, from + 1, host) {
      var next := from + 1;
      var i :| FirstValueAt(p, next, i, host);
      assert FirstValueAt(p, from, i, host);
    }
  }

  lemma {:induction false} HostFromIsFirst(p: seq<byte>, from: nat, host: seq<byte>)
    ensures HostFrom(p, from) == Some(host) <==> HasFirstValue(p, from, host)
    decreases |p| - from
  {
    if from + 6 < |p| {
      if ValueAt(p, from) == None {
        HostFromIsFirst(p, from + 1, host);
        FirstValueLater(p, from, host);
      } else if ValueAt(p, from) == Some(host) {
        assert FirstValueAt(p, from, from, host);
      }
    }
  }

  /** The extractor's answer is the first value of a host header, anywhere in a payload that begins like a request. */
  lemma HostIsFirstValue(p: seq<byte>, host: seq<byte>)
    ensures HostOf(p) == Some(host) <==> IsHttpRequest(p) && HasFirstValue(p, 0, host)
  {
    HostFromIsFirst(p, 0, host);
  }

  // ---------------------------------------------------------------- the value in the payload's own bytes

  /** The five letters and signs, whatever their case. */
  lemma HeaderHeedsNoCase(p: seq<byte>, i: nat)
    ensures HostHeaderAt(p, i) <==> i + 5 <= |p| && Lower(Chars(p[i..i + 5])) == "host:"
  {
    if i + 5 <= |p| {
      var five := p[i..i + 5];
      assert five == [p[i], p[i + 1], p[i + 2], p[i + 3], p[i + 4]];
      var text := Lower(Chars(five));
      assert text == [text[0], text[1], text[2], text[3], text[4]];
    }
  }

  predicate IsBlank(b: byte) {
    b == ' ' as int || b == '\t' as int
  }

  predicate IsColon(b: byte) {
    b == ':' as int
  }

  predicate EndsLine(p: seq<byte>, i: nat)
    requires i <= |p|
  {
    i == |p| || p[i] == '\r' as int || p[i] == '\n' as int
  }

  /**
   The bytes from `start` to `end` are the value of a header at `i`: blanks up to them, something on the
   line, no line end and no colon among them, and a colon or the line's end behind them.
   */
  predicate StandsFrom(p: seq<byte>, i: nat, start: nat, end: nat) {
    && HostHeaderAt(p, i) && i + 5 <= start <= end <= |p|
    && (forall k :: i + 5 <= k < start ==> IsBlank(p[k]))
    && !EndsLine(p, start) && !IsBlank(p[start])
    && (forall k :: start <= k < end ==> !IsColon(p[k]) && !EndsLine(p, k))
    && (EndsLine(p, end) || IsColon(p[end]))
  }

  lemma {:induction false} BlanksAreSkipped(p: seq<byte>, i: nat)
    requires i <= |p|
    ensures var r := SkipBlanks(p, i);
      (forall k :: i <= k < r ==> IsBlank(p[k])) && (r < |p| ==> !IsBlank(p[r]))
    decreases |p| - i
  {
    if i < |p| && IsBlank(p[i]) {
      BlanksAreSkipped(p, i + 1);
    }
  }

  lemma {:induction false} LineIsFollowed(p: seq<byte>, i: nat)
    requires i <= |p|
    ensures EndsLine(p, LineEnd(p, i)) && forall k :: i <= k < LineEnd(p, i) ==> !EndsLine(p, k)
    decreases |p| - i
  {
    if !EndsLine(p, i) {
      LineIsFollowed(p, i + 1);
    }
  }

  lemma {:induction false} ColonIsFound(s: seq<byte>)
    ensures var u := UntilColon(s);
      |u| <= |s| && u == s[..|u|] && (forall k :: 0 <= k < |u| ==> s[k] != COLON) && (|u| < |s| ==> s[|u|] == COLON)
  {
    if s != [] && s[0] != COLON {
      ColonIsFound(s[1..]);
    }
  }

  /** Where the value that the reader returns begins and ends. */
  lemma ValueStandsFrom(p: seq<byte>, i: nat) returns (start: nat, end: nat)
    requires i + 5 <= |p| && ValueAt(p, i).Some?
    ensures StandsFrom(p, i, start, end) && ValueAt(p, i) == Some(p[start..end])
  {
    start := SkipBlanks(p, i + 5);
    BlanksAreSkipped(p, i + 5);
    LineIsFollowed(p, start);
    var stop := LineEnd(p, start);
    end := ColonInLine(p, start, stop);
  }

  /** The line's text up to its first colon. */
  lemma ColonInLine(p: seq<byte>, start: nat, stop: nat) returns (end: nat)
    requires start <= stop <= |p|
    ensures start <= end <= stop && UntilColon(p[start..stop]) == p[start..end]
    ensures (forall k :: start <= k < end ==> !IsColon(p[k])) && (end < stop ==> IsColon(p[end]))
  {
    var line := p[start..stop];
    ColonIsFound(line);
    end := start + |UntilColon(line)|;
    assert forall k :: start <= k < stop ==> p[k] == line[k - start];
  }

  /** There is at most one such value at a header. */
  lemma ValueStandsOnce(p: seq<byte>, i: nat, start: nat, end: nat, start': nat, end': nat)
    requires StandsFrom(p, i, start, end) && StandsFrom(p, i, start', end')
    ensures start == start' && end == end'
  {
  }

  lemma NoValueMeansNone(p: seq<byte>, i: nat, start: nat, end: nat)
    requires i + 5 <= |p| && StandsFrom(p, i, start, end)
    ensures ValueAt(p, i).Some?
  {
    BlanksAreSkipped(p, i + 5);
    assert SkipBlanks(p, i + 5) == start;
  }

  /** So the reader's value at a header is exactly what stands there. */
  lemma ValueIsWhatStands(p: seq<byte>, i: nat, host: seq<byte>)
    requires i + 5 <= |p|
    ensures ValueAt(p, i) == Some(host) <==> exists start: nat, end: nat :: StandsFrom(p, i, start, end) && host == p[start..end]
  {
    if ValueAt(p, i).Some? {
      var start, end := ValueStandsFrom(p, i);
      forall start': nat, end': nat | StandsFrom(p, i, start', end') ensures p[start'..end'] == p[start..end] {
        ValueStandsOnce(p, i, start, end, start', end');
      }
    } else {
      forall start: nat, end: nat | StandsFrom(p, i, start, end) ensures false {
        NoValueMeansNone(p, i, start, end);
      }
    }
  }

  /** On any payload a host that is found stands behind a header, holds no colon, and ends at one or with its line. */
  lemma HostIsSliceWithoutPort(p: seq<byte>) returns (i: nat, start: nat, end: nat)
    requires HostOf(p).Some?
    ensures StandsFrom(p, i, start, end) && HostOf(p) == Some(p[start..end])
  {
    HostIsFirstValue(p, HostOf(p).value);
    i :| FirstValueAt(p, 0, i, HostOf(p).value);
    start, end := ValueStandsFrom(p, i);
  }
}
