/**
 The TLS ClientHello reader (section 7.4.1.2 of RFC 5246; server_name in section 3 of RFC 6066),
 against an encoder of arbitrary well-formed hellos.
 */
module TlsSni {
  import opened Types
  import opened Bytes

  const CONTENT_TYPE_HANDSHAKE: byte := 0x16
  const HANDSHAKE_CLIENT_HELLO: byte := 0x01
  const EXTENSION_SNI: uint16 := 0x0000
  const SNI_TYPE_HOSTNAME: byte := 0x00

  predicate IsClientHello(p: seq<byte>) {
    && |p| >= 9
    && p[0] == CONTENT_TYPE_HANDSHAKE
    && 0x0300 <= U16(p, 1) <= 0x0304
    && U16(p, 3) <= |p| - 5
    && p[5] == HANDSHAKE_CLIENT_HELLO
  }

  /** The host name in the body of a server_name extension, which stands at `p[body..body + size]`. */
  function ServerNameAt(p: seq<byte>, body: nat, size: nat): Option<seq<byte>>
    requires body + size <= |p|
  {
    if size < 5 || U16(p, body) < 3 || p[body + 2] != SNI_TYPE_HOSTNAME || U16(p, body + 3) as int > size - 5 then None
    else Some(p[body + 5..body + 5 + U16(p, body + 3) as int])
  }

  /** One turn of the walk over the extensions: it ends with a result, or goes on at a later offset. */
  datatype Walk = Stop(result: Option<seq<byte>>) | Next(offset: nat)

  function WalkOne(p: seq<byte>, offset: nat, end: nat): (w: Walk)
    requires end <= |p|
    ensures w.Next? ==> offset < w.offset <= end
  {
    if offset + 4 > end then Stop(None)
    else
      var kind, size: nat, body := U16(p, offset), U16(p, offset + 2), offset + 4;
      if body + size > end then Stop(None)
      else if kind != EXTENSION_SNI then Next(body + size)
      else Stop(ServerNameAt(p, body, size))
  }

  /** The host name bytes found by walking the extensions in `p[offset..end]`. */
  function FindSni(p: seq<byte>, offset: nat, end: nat): Option<seq<byte>>
    requires end <= |p|
    decreases |p| - offset
  {
    match WalkOne(p, offset, end)
    case Stop(result) => result
    case Next(later) => FindSni(p, later, end)
  }

  /** Where the extension list starts, once the fixed and the counted fields before it are skipped. */
  function ExtensionsStart(p: seq<byte>): (r: Option<nat>)
    ensures r.Some? ==> 2 <= r.value <= |p|
  {
    if !IsClientHello(p) || 43 >= |p| then None
    else
      var ciphers: nat := 44 + p[43] as int;
      if ciphers + 2 > |p| then None
      else
        var compression: nat := ciphers + 2 + U16(p, ciphers) as int;
        if compression >= |p| then None
        else
          var extensions: nat := compression + 1 + p[compression] as int;
          if extensions + 2 > |p| then None else Some(extensions + 2)
  }

  /** What the reader returns: the list may be cut short by the end of the payload. */
  function SniOf(p: seq<byte>): Option<seq<byte>> {
    match ExtensionsStart(p)
    case None => None
    case Some(start) =>
      var end: nat := start + U16(p, start - 2) as int;
      FindSni(p, start, if end > |p| then |p| else end)
  }

  /** Whatever the payload, a host name that is found is a slice of it. */
  lemma {:induction false} FoundSniIsSlice(p: seq<byte>, offset: nat, end: nat)
    requires end <= |p|
    ensures FindSni(p, offset, end).Some? ==> IsSlice(FindSni(p, offset, end).value, p)
    decreases |p| - offset
  {
    match WalkOne(p, offset, end)
    case Stop(_) =>
    case Next(later) => FoundSniIsSlice(p, later, end);
  }

  lemma SniIsSlice(p: seq<byte>)
    ensures SniOf(p).Some? ==> IsSlice(SniOf(p).value, p)
  {
    if ExtensionsStart(p).Some? {
      var start := ExtensionsStart(p).value;
      var end: nat := start + U16(p, start - 2) as int;
      FoundSniIsSlice(p, start, if end > |p| then |p| else end);
    }
  }

  /**
   `host` stands at `i` as a host_name entry does: its own length before it, type 0 before that, a list of
   at least three bytes, and an extension of type 0 that is long enough for all of it.
   */
  predicate FramedAt(p: seq<byte>, i: nat, host: seq<byte>) {
    && 9 <= i && i + |host| <= |p| && p[i..i + |host|] == host
    && p[i - 2] as int * 256 + p[i - 1] as int == |host| && p[i - 3] == 0
    && p[i - 5] as int * 256 + p[i - 4] as int >= 3
    && p[i - 7] as int * 256 + p[i - 6] as int >= 5 + |host|
    && p[i - 9] == 0 && p[i - 8] == 0
  }

  lemma ServerNameIsFramed(p: seq<byte>, body: nat, size: nat)
    requires 4 <= body && body + size <= |p| && U16(p, body - 4) == EXTENSION_SNI && U16(p, body - 2) == size
    requires ServerNameAt(p, body, size).Some?
    ensures FramedAt(p, body + 5, ServerNameAt(p, body, size).value)
  {
  }

  lemma {:induction false} FoundNameIsFramed(p: seq<byte>, offset: nat, end: nat)
    requires end <= |p| && FindSni(p, offset, end).Some?
    ensures exists i :: FramedAt(p, i, FindSni(p, offset, end).value)
    decreases |p| - offset
  {
    match WalkOne(p, offset, end)
    case Stop(_) =>
      ServerNameIsFramed(p, offset + 4, U16(p, offset + 2));
    case Next(later) => FoundNameIsFramed(p, later, end);
  }

  /** Whatever the payload, a name that is found stands in it framed like that. */
  lemma SniIsFramed(p: seq<byte>)
    requires SniOf(p).Some?
    ensures exists i :: FramedAt(p, i, SniOf(p).value)
  {
    var start := ExtensionsStart(p).value;
    var end: nat := start + U16(p, start - 2) as int;
    FoundNameIsFramed(p, start, if end > |p| then |p| else end);
  }

  /** The first half of the original: one offset advanced past the fixed and the counted fields. */
  method SkipToExtensions(payload: seq<byte>) returns (start: Option<nat>)
    ensures start == ExtensionsStart(payload)
  {
    if !IsClientHello(payload) { return None; }
    var offset: nat := 5;
    offset := offset + 4;
    offset := offset + 2;
    offset := offset + 32;
    if offset >= |payload| { return None; }
    offset := offset + 1 + payload[offset] as int;
    if offset + 2 > |payload| { return None; }
    offset := offset + 2 + U16(payload, offset) as int;
    if offset >= |payload| { return None; }
    offset := offset + 1 + payload[offset] as int;
    if offset + 2 > |payload| { return None; }
    offset := offset + 2;
    return Some(offset);
  }

  /** The body of the original's loop for a server_name extension; where that breaks off, nothing is found. */
  method ReadServerName(payload: seq<byte>, offset: nat, extensionLength: nat) returns (sni: Option<string>)
    requires offset + extensionLength <= |payload|
    ensures sni == match ServerNameAt(payload, offset, extensionLength) case Some(host) => Some(Chars(host)) case None => None
  {
    if extensionLength < 5 { return None; }
    var sniListLength := U16(payload, offset);
    if sniListLength < 3 { return None; }
    var sniType, sniLength: int := payload[offset + 2], U16(payload, offset + 3);
    if sniType != SNI_TYPE_HOSTNAME { return None; }
    if sniLength > extensionLength - 5 { return None; }
    return Some(Chars(payload[offset + 5..offset + 5 + sniLength]));
  }

  /**
   The second half: the loop over the extensions. Every read is in bounds for every payload, and
   the loop ends.
   */
  method Extract(payload: seq<byte>) returns (sni: Option<string>)
    ensures sni == match SniOf(payload) case Some(host) => Some(Chars(host)) case None => None
  {
    var start := SkipToExtensions(payload);
    if start.None? { return None; }
    var offset := start.value;
    var extensionsEnd := offset + U16(payload, offset - 2) as int;
    if extensionsEnd > |payload| {
      extensionsEnd := |payload|;
    }
    ghost var host := SniOf(payload);
    while offset + 4 <= extensionsEnd
      invariant 0 <= offset <= extensionsEnd <= |payload|
      invariant host == FindSni(payload, offset, extensionsEnd)
    {
      var extensionType, extensionLength: int := U16(payload, offset), U16(payload, offset + 2);
      offset := offset + 4;
      if offset + extensionLength > extensionsEnd { break; }
      if extensionType == EXTENSION_SNI {
        sni := ReadServerName(payload, offset, extensionLength);
        return;
      }
      offset := offset + extensionLength;
    }
    return None;
  }

  // ---------------------------------------------------------------- well-formed hellos

  datatype ServerNameEntry = ServerNameEntry(nameType: byte, name: seq<byte>)

  datatype Extension =
    | ServerName(names: seq<ServerNameEntry>)
    | Other(kind: uint16, data: seq<byte>)

  datatype ClientHello = ClientHello(
    recordVersion: uint16,
    clientVersion: uint16,
    random: seq<byte>,
    sessionId: seq<byte>,
    cipherSuites: seq<byte>,
    compression: seq<byte>,
    extensions: seq<Extension>)

  predicate NamesFit(names: seq<ServerNameEntry>) {
    forall i :: 0 <= i < |names| ==> |names[i].name| < 0x1_0000
  }

  function EncodeNames(names: seq<ServerNameEntry>): seq<byte>
    requires NamesFit(names)
  {
    if names == [] then []
    else [names[0].nameType] + (Counted16(names[0].name) + EncodeNames(names[1..]))
  }

  /** The length fields can hold the lengths, and only a server_name extension has its type. */
  predicate ExtensionFits(e: Extension) {
    match e
    case ServerName(names) =>
      && NamesFit(names)
      && |EncodeNames(names)| + 2 < 0x1_0000
    case Other(kind, data) => kind != EXTENSION_SNI && |data| < 0x1_0000
  }

  predicate AllFit(es: seq<Extension>) {
    forall i :: 0 <= i < |es| ==> ExtensionFits(es[i])
  }

  function ExtensionKind(e: Extension): uint16 {
    if e.ServerName? then EXTENSION_SNI else e.kind
  }

  function ExtensionData(e: Extension): (data: seq<byte>)
    requires ExtensionFits(e)
    ensures |data| < 0x1_0000
  {
    match e
    case ServerName(names) => Counted16(EncodeNames(names))
    case Other(_, data) => data
  }

  function EncodeExtension(e: Extension): (b: seq<byte>)
    requires ExtensionFits(e)
    ensures |b| == 4 + |ExtensionData(e)|
  {
    Big16(ExtensionKind(e)) + Counted16(ExtensionData(e))
  }

  function EncodeExtensions(es: seq<Extension>): seq<byte>
    requires AllFit(es)
  {
    if es == [] then [] else EncodeExtension(es[0]) + EncodeExtensions(es[1..])
  }

  predicate WellFormed(h: ClientHello) {
    && 0x0300 <= h.recordVersion <= 0x0304
    && |h.random| == 32
    && |h.sessionId| < 0x100
    && |h.cipherSuites| < 0x1_0000
    && |h.compression| < 0x100
    && AllFit(h.extensions)
    && |EncodeExtensions(h.extensions)| < 0x1_0000
    && BodyLength(h) + 4 < 0x1_0000
  }

  function BodyLength(h: ClientHello): nat
    requires AllFit(h.extensions)
  {
    2 + |h.random| + 1 + |h.sessionId| + 2 + |h.cipherSuites| + 1 + |h.compression| + 2 + |EncodeExtensions(h.extensions)|
  }

  function EncodeCounted(h: ClientHello): (b: seq<byte>)
    requires WellFormed(h)
    ensures |b| == BodyLength(h) - 2 - |h.random|
  {
    Counted8(h.sessionId) + (Counted16(h.cipherSuites) + (Counted8(h.compression) + Counted16(EncodeExtensions(h.extensions))))
  }

  function EncodeBody(h: ClientHello): (b: seq<byte>)
    requires WellFormed(h)
    ensures |b| == BodyLength(h)
  {
    Big16(h.clientVersion) + (h.random + EncodeCounted(h))
  }

  function EncodeHandshake(h: ClientHello): (b: seq<byte>)
    requires WellFormed(h)
    ensures |b| == BodyLength(h) + 4
  {
    [HANDSHAKE_CLIENT_HELLO] + ([0] + Counted16(EncodeBody(h)))
  }

  function Encode(h: ClientHello): seq<byte>
    requires WellFormed(h)
  {
    [CONTENT_TYPE_HANDSHAKE] + (Big16(h.recordVersion) + Counted16(EncodeHandshake(h)))
  }

  function FirstHost(names: seq<ServerNameEntry>): Option<seq<byte>> {
    if names != [] && names[0].nameType == SNI_TYPE_HOSTNAME then Some(names[0].name) else None
  }

  /** The host name a hello announces: the first entry of its first server_name extension, if that is a host name. */
  function AnnouncedHost(es: seq<Extension>): Option<seq<byte>> {
    if es == [] then None
    else match es[0]
      case ServerName(names) => FirstHost(names)
      case Other(_, _) => AnnouncedHost(es[1..])
  }

  // ---------------------------------------------------------------- reading back what was encoded

  /** A server_name extension is read as its first entry says. */
  lemma ServerNameIsRead(p: seq<byte>, body: nat, names: seq<ServerNameEntry>)
    requires ExtensionFits(ServerName(names))
    requires At(p, body, Counted16(EncodeNames(names)))
    ensures ServerNameAt(p, body, 2 + |EncodeNames(names)|) == FirstHost(names)
  {
    AtBig16(p, body, |EncodeNames(names)|, EncodeNames(names));
    if names != [] {
      var first, others := names[0], EncodeNames(names[1..]);
      AtByte(p, body + 2, first.nameType, Counted16(first.name) + others);
      AtCounted16(p, body + 3, first.name, others);
    }
  }

  lemma WalkStep(p: seq<byte>, offset: nat, e: Extension, end: nat)
    requires ExtensionFits(e)
    requires At(p, offset, EncodeExtension(e))
    requires offset + |EncodeExtension(e)| <= end <= |p|
    ensures WalkOne(p, offset, end)
         == if e.ServerName? then Stop(FirstHost(e.names)) else Next(offset + |EncodeExtension(e)|)
  {
    var data := ExtensionData(e);
    AtBig16(p, offset, ExtensionKind(e), Counted16(data));
    AtBig16(p, offset + 2, |data|, data);
    if e.ServerName? {
      ServerNameIsRead(p, offset + 4, e.names);
    }
  }

  /** How far the list reaches up to the end of its first server_name extension, or of all of it when there is none. */
  function UpToHost(es: seq<Extension>): nat
    requires AllFit(es)
  {
    if es == [] then 0 else |EncodeExtension(es[0])| + if es[0].ServerName? then 0 else UpToHost(es[1..])
  }

  /** An extension that is cut short ends the walk. */
  lemma CutExtensionStops(p: seq<byte>, offset: nat, e: Extension, n: nat)
    requires ExtensionFits(e) && n < |EncodeExtension(e)| && At(p, offset, EncodeExtension(e)[..n])
    ensures WalkOne(p, offset, offset + n) == Stop(None)
  {
    if n >= 4 {
      var b, data := EncodeExtension(e), ExtensionData(e);
      assert b[..n] == Big16(ExtensionKind(e)) + (Big16(|data|) + data[..n - 4]);
      AtBig16(p, offset, ExtensionKind(e), Big16(|data|) + data[..n - 4]);
      AtBig16(p, offset + 2, |data|, data[..n - 4]);
    }
  }

  lemma CutWalkStep(p: seq<byte>, offset: nat, e: Extension, rest: seq<byte>, end: nat)
    requires ExtensionFits(e) && offset <= end <= offset + |EncodeExtension(e)| + |rest|
    requires At(p, offset, (EncodeExtension(e) + rest)[..end - offset])
    ensures var later := offset + |EncodeExtension(e)|;
      && WalkOne(p, offset, end) == (if end < later then Stop(None) else if e.ServerName? then Stop(FirstHost(e.names)) else Next(later))
      && (later <= end ==> At(p, later, rest[..end - later]))
  {
    var first, n := EncodeExtension(e), end - offset;
    TakeOfAppend(first, rest, n);
    if n < |first| {
      CutExtensionStops(p, offset, e, n);
    } else {
      WholeExtensionIsWalked(p, offset, e, rest[..n - |first|], end);
    }
  }

  lemma WholeExtensionIsWalked(p: seq<byte>, offset: nat, e: Extension, rest: seq<byte>, end: nat)
    requires ExtensionFits(e) && At(p, offset, EncodeExtension(e) + rest) && end == offset + |EncodeExtension(e)| + |rest|
    ensures var later := offset + |EncodeExtension(e)|;
      WalkOne(p, offset, end) == (if e.ServerName? then Stop(FirstHost(e.names)) else Next(later)) && At(p, later, rest)
  {
    AtAppend(p, offset, EncodeExtension(e), rest);
    WalkStep(p, offset, e, end);
  }

  /** The search in a payload that ends inside the list yields the host if that is announced before the end. */
  predicate CutListIsFound(p: seq<byte>, offset: nat, es: seq<Extension>, end: nat)
    requires AllFit(es) && end <= |p|
  {
    FindSni(p, offset, end) == if offset + UpToHost(es) <= end then AnnouncedHost(es) else None
  }

  lemma FoundAfterOne(p: seq<byte>, offset: nat, es: seq<Extension>, end: nat, later: nat)
    requires AllFit(es) && es != [] && offset <= end <= |p| && later == offset + |EncodeExtension(es[0])|
    requires WalkOne(p, offset, end) ==
      if end < later then Stop(None) else if es[0].ServerName? then Stop(FirstHost(es[0].names)) else Next(later)
    requires later <= end && es[0].Other? ==> CutListIsFound(p, later, es[1..], end)
    ensures CutListIsFound(p, offset, es, end)
  {
  }

  lemma {:induction false} WalkOfCutList(p: seq<byte>, offset: nat, es: seq<Extension>, list: seq<byte>, end: nat)
    requires AllFit(es) && list == EncodeExtensions(es) && offset <= end <= offset + |list|
    requires At(p, offset, list[..end - offset])
    ensures CutListIsFound(p, offset, es, end)
    decreases |es|
  {
    if es != [] {
      var later, rest := offset + |EncodeExtension(es[0])|, EncodeExtensions(es[1..]);
      CutWalkStep(p, offset, es[0], rest, end);
      if later <= end && es[0].Other? {
        WalkOfCutList(p, later, es[1..], rest, end);
      }
      FoundAfterOne(p, offset, es, end, later);
    }
  }

  lemma {:induction false} UpToHostIsWithin(es: seq<Extension>)
    requires AllFit(es)
    ensures UpToHost(es) <= |EncodeExtensions(es)|
  {
    if es != [] {
      UpToHostIsWithin(es[1..]);
    }
  }

  /** Walking encoded extensions, wherever they stand in the payload, finds the announced host. */
  lemma WalkFindsAnnouncedHost(p: seq<byte>, offset: nat, es: seq<Extension>, end: nat)
    requires AllFit(es)
    requires At(p, offset, EncodeExtensions(es)) && end == offset + |EncodeExtensions(es)|
    ensures FindSni(p, offset, end) == AnnouncedHost(es)
  {
    var list := EncodeExtensions(es);
    assert list[..|list|] == list;
    WalkOfCutList(p, offset, es, list, end);
    UpToHostIsWithin(es);
  }

  /** The counted fields of an encoded body send the reader to its extensions. */
  lemma CountedFieldsAreSkipped(p: seq<byte>, session: seq<byte>, suites: seq<byte>, compression: seq<byte>, extensions: seq<byte>)
    requires |session| < 0x100 && |suites| < 0x1_0000 && |compression| < 0x100 && |extensions| < 0x1_0000
    requires IsClientHello(p)
    requires At(p, 43, Counted8(session) + (Counted16(suites) + (Counted8(compression) + Counted16(extensions))))
    ensures var start := 49 + |session| + |suites| + |compression|;
      ExtensionsStart(p) == Some(start) && U16(p, start - 2) == |extensions| && At(p, start, extensions)
  {
    var afterSuites := Counted8(compression) + Counted16(extensions);
    AtCounted8(p, 43, session, Counted16(suites) + afterSuites);
    var i := 44 + |session|;
    AtCounted16(p, i, suites, afterSuites);
    AfterSuites(p, i + 2 + |suites|, compression, extensions);
    StartIs(p, |session|, |suites|, |compression|);
  }

  lemma StartIs(p: seq<byte>, session: nat, suites: nat, compression: nat)
    requires IsClientHello(p) && 43 < |p| && p[43] == session
    requires 46 + session <= |p| && U16(p, 44 + session) == suites
    requires 46 + session + suites < |p| && p[46 + session + suites] == compression
    requires 49 + session + suites + compression <= |p|
    ensures ExtensionsStart(p) == Some(49 + session + suites + compression)
  {
  }

  lemma AfterSuites(p: seq<byte>, i: nat, compression: seq<byte>, extensions: seq<byte>)
    requires |compression| < 0x100 && |extensions| < 0x1_0000
    requires At(p, i, Counted8(compression) + Counted16(extensions))
    ensures i < |p| && p[i] == |compression|
    ensures i + 3 + |compression| <= |p|
    ensures U16(p, i + 1 + |compression|) == |extensions| && At(p, i + 3 + |compression|, extensions)
  {
    AtCounted8(p, i, compression, Counted16(extensions));
    AtBig16(p, i + 1 + |compression|, |extensions|, extensions);
  }

  lemma SniAtStart(p: seq<byte>, start: nat, size: nat)
    requires ExtensionsStart(p) == Some(start)
    requires U16(p, start - 2) == size && start + size <= |p|
    ensures SniOf(p) == FindSni(p, start, start + size)
  {
  }

  lemma ListIsSearched(p: seq<byte>, start: nat, es: seq<Extension>, encoded: seq<byte>)
    requires AllFit(es) && encoded == EncodeExtensions(es)
    requires ExtensionsStart(p) == Some(start)
    requires U16(p, start - 2) == |encoded| && At(p, start, encoded)
    ensures SniOf(p) == AnnouncedHost(es)
  {
    SniAtStart(p, start, |encoded|);
    WalkFindsAnnouncedHost(p, start, es, start + |encoded|);
  }

  lemma HeadersAreRead(p: seq<byte>, h: ClientHello)
    requires WellFormed(h) && At(p, 0, Encode(h))
    ensures IsClientHello(p) && At(p, 43, EncodeCounted(h))
  {
    RecordIsRead(p, h);
    HandshakeIsRead(p, h);
    BodyIsRead(p, h);
  }

  lemma RecordIsRead(p: seq<byte>, h: ClientHello)
    requires WellFormed(h) && At(p, 0, Encode(h))
    ensures |p| >= 5 && p[0] == CONTENT_TYPE_HANDSHAKE && U16(p, 1) == h.recordVersion && U16(p, 3) == |EncodeHandshake(h)|
    ensures At(p, 5, EncodeHandshake(h))
  {
    RecordFieldsAreRead(p, h.recordVersion, EncodeHandshake(h));
  }

  lemma RecordFieldsAreRead(p: seq<byte>, version: uint16, handshake: seq<byte>)
    requires |handshake| < 0x1_0000 && At(p, 0, [CONTENT_TYPE_HANDSHAKE] + (Big16(version) + Counted16(handshake)))
    ensures |p| >= 5 && p[0] == CONTENT_TYPE_HANDSHAKE && U16(p, 1) == version && U16(p, 3) == |handshake| && At(p, 5, handshake)
  {
    AtByte(p, 0, CONTENT_TYPE_HANDSHAKE, Big16(version) + Counted16(handshake));
    AtBig16(p, 1, version, Counted16(handshake));
    AtBig16(p, 3, |handshake|, handshake);
  }

  lemma HandshakeIsRead(p: seq<byte>, h: ClientHello)
    requires WellFormed(h) && At(p, 5, EncodeHandshake(h))
    ensures |p| >= 9 && p[5] == HANDSHAKE_CLIENT_HELLO && At(p, 9, EncodeBody(h))
  {
    var body := EncodeBody(h);
    AtByte(p, 5, HANDSHAKE_CLIENT_HELLO, [0] + Counted16(body));
    AtByte(p, 6, 0, Counted16(body));
    AtBig16(p, 7, |body|, body);
  }

  lemma BodyIsRead(p: seq<byte>, h: ClientHello)
    requires WellFormed(h) && At(p, 9, EncodeBody(h))
    ensures At(p, 43, EncodeCounted(h))
  {
    AtBig16(p, 9, h.clientVersion, h.random + EncodeCounted(h));
    AtAppend(p, 11, h.random, EncodeCounted(h));
  }

  /** Where the handshake message's extensions begin. */
  function ListStart(h: ClientHello): nat
    requires WellFormed(h)
  {
    |EncodeHandshake(h)| - |EncodeExtensions(h.extensions)|
  }

  lemma ListStartIs(h: ClientHello)
    requires WellFormed(h)
    ensures ListStart(h) == 44 + |h.sessionId| + |h.cipherSuites| + |h.compression|
    ensures |Encode(h)| == 5 + ListStart(h) + |EncodeExtensions(h.extensions)|
  {
  }

  lemma ListIsReached(p: seq<byte>, h: ClientHello)
    requires WellFormed(h) && At(p, 0, Encode(h))
    ensures var start, list := 5 + ListStart(h), EncodeExtensions(h.extensions);
      IsClientHello(p) && ExtensionsStart(p) == Some(start) && U16(p, start - 2) == |list| && At(p, start, list)
  {
    HeadersAreRead(p, h);
    ListStartIs(h);
    CountedFieldsAreSkipped(p, h.sessionId, h.cipherSuites, h.compression, EncodeExtensions(h.extensions));
  }

  /** The TLS round trip: any well-formed hello, followed by anything, yields exactly the host it announces. */
  lemma HelloRoundTrip(h: ClientHello, trailing: seq<byte>)
    requires WellFormed(h)
    ensures SniOf(Encode(h) + trailing) == AnnouncedHost(h.extensions)
  {
    var p := Encode(h) + trailing;
    assert At(p, 0, Encode(h));
    ListIsReached(p, h);
    ListIsSearched(p, 5 + ListStart(h), h.extensions, EncodeExtensions(h.extensions));
  }

  /** A hello that was cut short anywhere is not read at all: its record length gives it away. */
  lemma TruncatedHelloIsRejected(h: ClientHello, n: nat)
    requires WellFormed(h) && n < |Encode(h)|
    ensures SniOf(Encode(h)[..n]) == None
  {
    var p := Encode(h);
    var handshake := EncodeHandshake(h);
    AtByte(p, 0, CONTENT_TYPE_HANDSHAKE, Big16(h.recordVersion) + Counted16(handshake));
    AtBig16(p, 1, h.recordVersion, Counted16(handshake));
    AtBig16(p, 3, |handshake|, handshake);
    assert |p| == 5 + |handshake|;
  }

  // ---------------------------------------------------------------- hellos split over records

  /** The first record of a hello whose handshake message is split behind its first `k` bytes. */
  function FirstRecord(h: ClientHello, k: nat): seq<byte>
    requires WellFormed(h) && k <= |EncodeHandshake(h)|
  {
    [CONTENT_TYPE_HANDSHAKE] + (Big16(h.recordVersion) + Counted16(EncodeHandshake(h)[..k]))
  }

  /** The way to the extensions is the same in a payload that is shorter or has another record length. */
  lemma StartOfCutHello(p: seq<byte>, full: seq<byte>)
    requires |p| <= |full| && forall i :: 9 <= i < |p| ==> p[i] == full[i]
    requires IsClientHello(p) && IsClientHello(full) && ExtensionsStart(full).Some?
    ensures ExtensionsStart(p) == if ExtensionsStart(full).value <= |p| then ExtensionsStart(full) else None
  {
  }

  lemma FirstRecordIsRead(h: ClientHello, k: nat)
    requires WellFormed(h) && k <= |EncodeHandshake(h)|
    ensures var p, full := FirstRecord(h, k), Encode(h);
      |p| == 5 + k && p[5..] == full[5..|p|] && (IsClientHello(p) <==> k >= 4)
  {
    var p, handshake := FirstRecord(h, k), EncodeHandshake(h);
    assert At(p, 0, p) && At(Encode(h), 0, Encode(h));
    RecordFieldsAreRead(p, h.recordVersion, handshake[..k]);
    RecordFieldsAreRead(Encode(h), h.recordVersion, handshake);
    assert handshake[0] == HANDSHAKE_CLIENT_HELLO;
  }

  lemma WholeHelloIsRead(h: ClientHello)
    requires WellFormed(h)
    ensures var full, start, list := Encode(h), 5 + ListStart(h), EncodeExtensions(h.extensions);
      && IsClientHello(full) && ExtensionsStart(full) == Some(start) && U16(full, start - 2) == |list|
      && start + |list| == |full| && full[start..] == list && ListStart(h) >= 44
  {
    assert At(Encode(h), 0, Encode(h));
    ListIsReached(Encode(h), h);
    ListStartIs(h);
  }

  lemma CutListIsHeld(p: seq<byte>, full: seq<byte>, start: nat, list: seq<byte>)
    requires 7 <= start <= |p| <= |full| == start + |list| && p[5..] == full[5..|p|] && full[start..] == list
    ensures p[start..] == list[..|p| - start] && U16(p, start - 2) == U16(full, start - 2)
  {
    assert forall i :: 5 <= i < |p| ==> p[i] == p[5..][i - 5] == full[5..|p|][i - 5] == full[i];
  }

  /** A list of which the payload holds the first `n` bytes is searched as far as it goes. */
  lemma CutListIsSearched(p: seq<byte>, start: nat, es: seq<Extension>, encoded: seq<byte>, n: nat)
    requires AllFit(es) && encoded == EncodeExtensions(es) && n <= |encoded|
    requires ExtensionsStart(p) == Some(start) && start + n == |p|
    requires U16(p, start - 2) == |encoded| && p[start..] == encoded[..n]
    ensures SniOf(p) == if UpToHost(es) <= n then AnnouncedHost(es) else None
  {
    assert At(p, start, encoded[..n]);
    WalkOfCutList(p, start, es, encoded, |p|);
  }

  /**
   Of a hello that goes on in another record, the first record yields the announced host exactly when
   its server_name extension ends within that record, and nothing otherwise.
   */
  lemma SplitHelloIsRead(h: ClientHello, k: nat)
    requires WellFormed(h) && k <= |EncodeHandshake(h)|
    ensures SniOf(FirstRecord(h, k)) == if ListStart(h) + UpToHost(h.extensions) <= k then AnnouncedHost(h.extensions) else None
  {
    var p, full, start := FirstRecord(h, k), Encode(h), 5 + ListStart(h);
    FirstRecordIsRead(h, k);
    WholeHelloIsRead(h);
    if k >= 4 {
      StartOfCutHello(p, full);
      if start <= |p| {
        CutListIsHeld(p, full, start, EncodeExtensions(h.extensions));
        CutListIsSearched(p, start, h.extensions, EncodeExtensions(h.extensions), |p| - start);
      }
    }
  }

  // ---------------------------------------------------------------- the repository's own encoder

  /** `create_tls_client_hello`: one host name, TLS 1.3 advertised, two suites. */
  function CreateTlsClientHello(sni: seq<byte>, random: seq<byte>): seq<byte>
    requires |random| == 32 && |sni| + 65 < 0x1_0000
  {
    var sniEntry := [0] + Counted16(sni);
    var sniExt := Big16(0x0000) + Counted16(Counted16(sniEntry));
    var supportedVersions := Big16(0x002b) + (Big16(3) + ([2] + Big16(0x0304)));
    var extensionsData := Counted16(sniExt + supportedVersions);
    var cipherSuites := Big16(4) + (Big16(0x1301) + Big16(0x1302));
    var compression := [1, 0];
    var body := Big16(0x0303) + (random + ([0] + (cipherSuites + (compression + extensionsData))));
    var handshake := [0x01] + ([0] + Counted16(body));
    [0x16] + (Big16(0x0301) + Counted16(handshake))
  }

  /** The hello that the generator writes. */
  function GeneratedHello(sni: seq<byte>, random: seq<byte>): ClientHello {
    ClientHello(0x0301, 0x0303, random, [], Big16(0x1301) + Big16(0x1302), [0],
                [ServerName([ServerNameEntry(0, sni)]), Other(0x002b, [2] + Big16(0x0304))])
  }

  lemma GeneratedExtensions(sni: seq<byte>, random: seq<byte>)
    requires |sni| + 65 < 0x1_0000
    ensures AllFit(GeneratedHello(sni, random).extensions)
    ensures EncodeExtensions(GeneratedHello(sni, random).extensions)
         == (Big16(0x0000) + Counted16(Counted16([0] + Counted16(sni)))) + (Big16(0x002b) + (Big16(3) + ([2] + Big16(0x0304))))
  {
    var es := GeneratedHello(sni, random).extensions;
    var names := [ServerNameEntry(0, sni)];
    assert EncodeNames(names[1..]) == [];
    assert EncodeNames(names) == [0] + Counted16(sni);
    assert es == [ServerName(names), es[1]] && es[1..] == [es[1]] && [es[1]][1..] == [];
    assert EncodeExtensions([es[1]]) == EncodeExtension(es[1]);
    assert EncodeExtension(es[1]) == Big16(0x002b) + (Big16(3) + ([2] + Big16(0x0304)));
  }

  lemma GeneratedHelloIsEncoded(sni: seq<byte>, random: seq<byte>)
    requires |random| == 32 && |sni| + 65 < 0x1_0000
    ensures WellFormed(GeneratedHello(sni, random))
    ensures CreateTlsClientHello(sni, random) == Encode(GeneratedHello(sni, random))
  {
    var h := GeneratedHello(sni, random);
    GeneratedExtensions(sni, random);
    assert Counted8(h.sessionId) == [0];
    assert Counted8(h.compression) == [1, 0];
  }

  /** Every hello the generator can write is read back to the name it was made for. */
  lemma GeneratedHelloRoundTrip(sni: seq<byte>, random: seq<byte>, trailing: seq<byte>)
    requires |random| == 32 && |sni| + 65 < 0x1_0000
    ensures SniOf(CreateTlsClientHello(sni, random) + trailing) == Some(sni)
  {
    GeneratedHelloIsEncoded(sni, random);
    HelloRoundTrip(GeneratedHello(sni, random), trailing);
  }
}
