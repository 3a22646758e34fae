/** The datasource proxy path: what validation accepts, and where the request
    goes once dot segments are removed, before and after percent-decoding. */
module ProxyPath {
  import opened Prelude
  import opened Splitting

  newtype byte = x: int | 0 <= x < 256

  type Bytes = seq<byte>

  const PERCENT: byte := 37
  const MINUS: byte := 45
  const DOT: byte := 46
  const SLASH: byte := 47

  /** The empty segment, "." and "..". */
  const NO_SEGMENT: Bytes := []
  const DOT_SEGMENT: Bytes := [DOT]
  const DOT_DOT: Bytes := [DOT, DOT]

  /** The segments "api", "datasources" and "proxy". */
  const API: Bytes := [97, 112, 105]
  const DATASOURCES: Bytes := [100, 97, 116, 97, 115, 111, 117, 114, 99, 101, 115]
  const PROXY: Bytes := [112, 114, 111, 120, 121]

  datatype PathError = Empty | TooLong | LeadingSlash | InvalidEscape | Traversal

  // ------------------------------------------------------ percent-decoding

  function HexValue(b: byte): Option<byte>
  {
    if 48 <= b <= 57 then Some(b - 48)
    else if 65 <= b <= 70 then Some(b - 55)
    else if 97 <= b <= 102 then Some(b - 87)
    else None
  }

  /** url.PathUnescape, one pass; None is an invalid escape. */
  function Decode(s: Bytes): Option<Bytes>
  {
    if s == [] then Some([])
    else if s[0] == PERCENT then
      if |s| < 3 || HexValue(s[1]).None? || HexValue(s[2]).None? then None
      else
        match Decode(s[3..])
        case None => None
        case Some(rest) => Some([HexValue(s[1]).value * 16 + HexValue(s[2]).value] + rest)
    else
      match Decode(s[1..])
      case None => None
      case Some(rest) => Some([s[0]] + rest)
  }

  function ValidateDatasourceProxyPath(p: Bytes): Option<PathError>
  {
    if p == [] then Some(Empty)
    else if |p| > 1024 then Some(TooLong)
    else if p[0] == SLASH then Some(LeadingSlash)
    else
      match Decode(p)
      case None => Some(InvalidEscape)
      case Some(decoded) => if Contains(decoded, DOT_DOT) then Some(Traversal) else None
  }

  function Digits(n: nat): Bytes
  {
    if n < 10 then [48 + n as byte] else Digits(n / 10) + [48 + (n % 10) as byte]
  }

  /** %d */
  function Decimal(n: int): Bytes
  {
    if n < 0 then [MINUS] + Digits(-n) else Digits(n)
  }

  function ProxyPrefix(id: int): seq<Bytes>
  {
    [API, DATASOURCES, PROXY, Decimal(id)]
  }

  /** /api/datasources/proxy/{id}/{p} */
  function RequestPath(id: int, p: Bytes): Bytes
  {
    Join([NO_SEGMENT] + (ProxyPrefix(id) + [p]), SLASH)
  }

  // ----------------------------------------------------- dot-segment removal

  /** path.Clean on a segment list: empty and "." segments vanish, ".." takes
      the segment before it along. */
  function Clean(segs: seq<Bytes>): seq<Bytes>
  {
    if segs == [] then []
    else
      var done, seg := Clean(Front(segs)), Last(segs);
      if seg == [] || seg == DOT_SEGMENT then done
      else if seg == DOT_DOT then (if done == [] then [] else Front(done))
      else done + [seg]
  }

  predicate IsReal(seg: Bytes)
  {
    seg != [] && seg != DOT_SEGMENT
  }

  function Keep(segs: seq<Bytes>): seq<Bytes>
  {
    Filter(IsReal, segs)
  }

  /** Without ".." on the right, cleaning only drops empty and "." segments
      there, and what is on the left stays in front. */
  lemma {:induction false} CleanAppend(x: seq<Bytes>, y: seq<Bytes>)
    requires DOT_DOT !in y
    ensures Clean(x + y) == Clean(x) + Keep(y)
  {
    if y == [] {
      assert x + y == x;
    } else {
      assert Front(x + y) == x + Front(y) && Last(x + y) == Last(y);
      CleanAppend(x, Front(y));
    }
  }

  // ------------------------------------------- decoding, segment by segment

  function Joined(a: Option<Bytes>, b: Option<Bytes>): Option<Bytes>
  {
    if a.Some? && b.Some? then Some(a.value + [SLASH] + b.value) else None
  }

  /** An escape never straddles a slash. */
  lemma {:induction false} DecodeConcat(a: Bytes, b: Bytes)
    ensures Decode(a + [SLASH] + b) == Joined(Decode(a), Decode(b))
  {
    var s := a + [SLASH] + b;
    if a == [] {
      assert s[1..] == b;
      if Decode(b).Some? {
        assert [SLASH] + Decode(b).value == [] + [SLASH] + Decode(b).value;
      }
    } else if a[0] != PERCENT {
      DecodeConcat(a[1..], b);
      assert s[1..] == a[1..] + [SLASH] + b;
      if Decode(a[1..]).Some? && Decode(b).Some? {
        Associate([a[0]], Decode(a[1..]).value + [SLASH], Decode(b).value);
        Associate([a[0]], Decode(a[1..]).value, [SLASH]);
      }
    } else if |a| >= 3 {
      DecodeConcat(a[3..], b);
      assert s[3..] == a[3..] + [SLASH] + b;
      if Decode(a).Some? && Decode(b).Some? {
        var code := [HexValue(a[1]).value * 16 + HexValue(a[2]).value];
        Associate(code, Decode(a[3..]).value + [SLASH], Decode(b).value);
        Associate(code, Decode(a[3..]).value, [SLASH]);
      }
    } else {
      assert s[|a|] == SLASH && HexValue(SLASH).None?;
    }
  }

  predicate AllDecode(segs: seq<Bytes>)
  {
    forall seg | seg in segs :: Decode(seg).Some?
  }

  /** The segments after decoding: an escaped slash makes several of one. */
  function Expanded(segs: seq<Bytes>): seq<Bytes>
  {
    if segs == [] then []
    else (if Decode(segs[0]).Some? then Split(Decode(segs[0]).value, SLASH) else []) + Expanded(segs[1..])
  }

  lemma {:induction false} ExpandedAppend(a: seq<Bytes>, b: seq<Bytes>)
    ensures Expanded(a + b) == Expanded(a) + Expanded(b)
  {
    if a == [] {
      assert a + b == b;
    } else {
      assert (a + b)[1..] == a[1..] + b;
      ExpandedAppend(a[1..], b);
    }
  }

  predicate Holds(seg: Bytes, x: Bytes)
  {
    Decode(seg).Some? && x in Split(Decode(seg).value, SLASH)
  }

  lemma {:induction false} ExpandedMember(segs: seq<Bytes>, x: Bytes)
    ensures x in Expanded(segs) <==> exists seg :: seg in segs && Holds(seg, x)
  {
    if segs != [] {
      assert segs == [segs[0]] + segs[1..];
      ExpandedMember(segs[1..], x);
      assert x in Expanded(segs) <==> Holds(segs[0], x) || x in Expanded(segs[1..]);
    }
  }

  /** A joined path decodes exactly when every segment does, into the
      segments that they decode to. */
  lemma {:induction false} DecodeOfJoin(segs: seq<Bytes>)
    requires segs != []
    ensures Decode(Join(segs, SLASH)).Some? <==> AllDecode(segs)
    ensures AllDecode(segs) ==> Split(Decode(Join(segs, SLASH)).value, SLASH) == Expanded(segs)
  {
    assert segs == [segs[0]] + segs[1..];
    if |segs| > 1 {
      DecodeConcat(segs[0], Join(segs[1..], SLASH));
      DecodeOfJoin(segs[1..]);
      if AllDecode(segs) {
        SplitConcat(Decode(segs[0]).value, Decode(Join(segs[1..], SLASH)).value, SLASH);
      }
    }
  }

  /** Decoding a path and then splitting it is splitting it and then decoding. */
  lemma {:induction false} DecodedSegments(p: Bytes)
    requires Decode(p).Some?
    ensures AllDecode(Split(p, SLASH))
    ensures Split(Decode(p).value, SLASH) == Expanded(Split(p, SLASH))
  {
    JoinOfSplit(p, SLASH);
    DecodeOfJoin(Split(p, SLASH));
  }

  // -------------------------------------------------------- no ".." segments

  lemma {:induction false} DecodePlain(seg: Bytes)
    requires PERCENT !in seg
    ensures Decode(seg) == Some(seg)
  {
    if seg != [] {
      DecodePlain(seg[1..]);
      assert seg == [seg[0]] + seg[1..] && seg[0] in seg;
    }
  }

  lemma DotDotDecodesToItself()
    ensures Decode(DOT_DOT) == Some(DOT_DOT) && Split(DOT_DOT, SLASH) == [DOT_DOT]
  {
    DecodePlain(DOT_DOT);
    SplitWhole(DOT_DOT, SLASH);
  }

  /** A decoded path without ".." has no ".." segment, raw or decoded. */
  lemma {:induction false} NoTraversalSegment(p: Bytes)
    requires Decode(p).Some? && !Contains(Decode(p).value, DOT_DOT)
    ensures DOT_DOT !in Split(Decode(p).value, SLASH) && DOT_DOT !in Split(p, SLASH)
  {
    var decoded := Decode(p).value;
    DecodedSegments(p);
    ExpandedMember(Split(p, SLASH), DOT_DOT);
    DotDotDecodesToItself();
    if DOT_DOT in Split(decoded, SLASH) {
      PieceOccurs(decoded, SLASH, DOT_DOT);
    }
  }

  lemma PieceHasDotDot(s: Bytes, k: int)
    requires OccursAt(s, DOT_DOT, k)
    ensures exists piece :: piece in Split(s, SLASH) && Contains(piece, DOT_DOT)
    decreases |s|
  {
    var i := IndexOf(s, SLASH);
    assert s[k] == DOT_DOT[0] && s[k + 1] == DOT_DOT[1];
    if i == |s| {
      assert s in Split(s, SLASH);
    } else if k < i {
      assert s[..i][k..k + 2] == s[k..k + 2];
      assert OccursAt(s[..i], DOT_DOT, k);
      assert s[..i] in Split(s, SLASH);
    } else {
      assert k != i;
      assert s[i + 1..][k - i - 1..k - i + 1] == s[k..k + 2];
      PieceHasDotDot(s[i + 1..], k - i - 1);
    }
  }

  /** ".." occurs in a path exactly when it occurs in one of its segments. */
  lemma {:induction false} DotDotIsInASegment(s: Bytes)
    ensures Contains(s, DOT_DOT) <==> exists piece :: piece in Split(s, SLASH) && Contains(piece, DOT_DOT)
  {
    if k :| 0 <= k <= |s| - |DOT_DOT| && OccursAt(s, DOT_DOT, k) {
      PieceHasDotDot(s, k);
    }
    if piece :| piece in Split(s, SLASH) && Contains(piece, DOT_DOT) {
      PieceOccurs(s, SLASH, piece);
      ContainsTransitive(s, piece, DOT_DOT);
    }
  }

  /** What validation accepts, segment by segment: a relative path of at most
      1024 bytes whose segments all decode, none of them into anything with
      ".." in it. */
  lemma {:induction false} AcceptedIff(p: Bytes)
    ensures ValidateDatasourceProxyPath(p).None? <==>
      && 0 < |p| <= 1024 && Split(p, SLASH)[0] != NO_SEGMENT
      && AllDecode(Split(p, SLASH))
      && forall seg | seg in Expanded(Split(p, SLASH)) :: !Contains(seg, DOT_DOT)
  {
    JoinOfSplit(p, SLASH);
    DecodeOfJoin(Split(p, SLASH));
    if Decode(p).Some? {
      DotDotIsInASegment(Decode(p).value);
    }
  }

  // ------------------------------------------------------------- escaping

  /** b is the hexadecimal digit of this value, in either case. */
  predicate IsDigit(b: byte, value: byte)
    requires value < 16
  {
    b as int == "0123456789abcdef"[value] as int || b as int == "0123456789ABCDEF"[value] as int
  }

  /** p is a percent-encoding of s: each byte, other than a percent sign, stands
      for itself, or any byte is written as a percent sign and two digits. */
  ghost predicate Encodes(p: Bytes, s: Bytes)
  {
    if s == [] then p == []
    else
      || (p != [] && p[0] == s[0] && s[0] != PERCENT && Encodes(p[1..], s[1..]))
      || (|p| >= 3 && p[0] == PERCENT && IsDigit(p[1], s[0] / 16) && IsDigit(p[2], s[0] % 16) && Encodes(p[3..], s[1..]))
  }

  lemma DecimalDigits(value: byte)
    requires value < 16
    ensures value < 10 ==> "0123456789abcdef"[value] as int == 48 + value as int && "0123456789ABCDEF"[value] as int == 48 + value as int
  {
  }

  lemma LetterDigits(value: byte)
    requires value < 16
    ensures value >= 10 ==> "0123456789abcdef"[value] as int == 87 + value as int && "0123456789ABCDEF"[value] as int == 55 + value as int
  {
  }

  lemma DigitHasItsValue(b: byte, value: byte)
    requires value < 16
    ensures IsDigit(b, value) <==> HexValue(b) == Some(value)
  {
    DecimalDigits(value);
    LetterDigits(value);
  }

  lemma Halves(b: byte, high: byte, low: byte)
    requires high < 16 && low < 16
    ensures high * 16 + low == b <==> high == b / 16 && low == b % 16
  {
  }

  lemma EscapeHasItsByte(b: byte, first: byte, second: byte)
    ensures HexValue(first).Some? && HexValue(second).Some? && HexValue(first).value * 16 + HexValue(second).value == b
       <==> IsDigit(first, b / 16) && IsDigit(second, b % 16)
  {
    DigitHasItsValue(first, b / 16);
    DigitHasItsValue(second, b % 16);
    if HexValue(first).Some? && HexValue(second).Some? {
      Halves(b, HexValue(first).value, HexValue(second).value);
    }
  }

  lemma SameStart(b: byte, rest: Bytes, s: Bytes)
    requires s != []
    ensures [b] + rest == s <==> b == s[0] && rest == s[1..]
  {
    assert s == [s[0]] + s[1..];
    assert ([b] + rest)[1..] == rest && ([b] + rest)[0] == b;
  }

  /** Two digits and a decoded rest make up s. */
  predicate Makes(first: byte, second: byte, rest: Option<Bytes>, s: Bytes)
  {
    && HexValue(first).Some? && HexValue(second).Some? && rest.Some?
    && [HexValue(first).value * 16 + HexValue(second).value] + rest.value == s
  }

  lemma DecodeAtPercent(p: Bytes, s: Bytes)
    requires |p| >= 3 && p[0] == PERCENT
    ensures Decode(p) == Some(s) <==> Makes(p[1], p[2], Decode(p[3..]), s)
  {
  }

  lemma MakesMeaning(first: byte, second: byte, rest: Option<Bytes>, s: Bytes)
    requires s != []
    ensures Makes(first, second, rest, s) <==> IsDigit(first, s[0] / 16) && IsDigit(second, s[0] % 16) && rest == Some(s[1..])
  {
    EscapeHasItsByte(s[0], first, second);
    if HexValue(first).Some? && HexValue(second).Some? && rest.Some? {
      SameStart(HexValue(first).value * 16 + HexValue(second).value, rest.value, s);
    }
  }

  lemma DecodeEscape(p: Bytes, s: Bytes)
    requires |p| >= 3 && p[0] == PERCENT && s != []
    ensures Decode(p) == Some(s) <==> IsDigit(p[1], s[0] / 16) && IsDigit(p[2], s[0] % 16) && Decode(p[3..]) == Some(s[1..])
  {
    DecodeAtPercent(p, s);
    MakesMeaning(p[1], p[2], Decode(p[3..]), s);
  }

  /** Decoding undoes every percent-encoding, and succeeds on nothing else. */
  lemma {:induction false} DecodeUndoesEscape(p: Bytes, s: Bytes)
    ensures Decode(p) == Some(s) <==> Encodes(p, s)
    decreases |p|
  {
    if p != [] && s != [] {
      if p[0] != PERCENT {
        DecodeUndoesEscape(p[1..], s[1..]);
        assert s == [s[0]] + s[1..];
      } else if |p| >= 3 {
        DecodeUndoesEscape(p[3..], s[1..]);
        DecodeEscape(p, s);
      }
    }
  }

  /** Traversal is refused however it is encoded, and encoding adds no other
      reason for refusal than length and a literal leading slash. */
  lemma {:induction false} EncodedTraversalIsRefused(p: Bytes, s: Bytes)
    requires Encodes(p, s)
    ensures Contains(s, DOT_DOT) ==> ValidateDatasourceProxyPath(p).Some?
    ensures s != [] && !Contains(s, DOT_DOT) ==>
      (ValidateDatasourceProxyPath(p).Some? <==> |p| > 1024 || p[0] == SLASH)
  {
    DecodeUndoesEscape(p, s);
  }

  /** The bytes of a literal. */
  function Ascii(text: string): Bytes
    requires forall c | c in text :: c as int < 128
  {
    seq(|text|, i requires 0 <= i < |text| => assert text[i] in text; text[i] as int as byte)
  }

  lemma EscapedDots(p: Bytes)
    requires |p| == 6 && p[0] == p[3] == PERCENT && IsDigit(p[1], 2) && IsDigit(p[2], 14) && IsDigit(p[4], 2) && IsDigit(p[5], 14)
    ensures ValidateDatasourceProxyPath(p) == Some(Traversal)
  {
    assert p[3..][3..] == [] && DOT_DOT[1..][1..] == [];
    assert Encodes(p[3..], DOT_DOT[1..]);
    assert Encodes(p, DOT_DOT);
    DecodeUndoesEscape(p, DOT_DOT);
    assert OccursAt(DOT_DOT, DOT_DOT, 0);
  }

  /** In lower case and in upper case, "%2e%2e" is traversal. */
  lemma {:induction false} EscapedDotsAreRefused()
    ensures ValidateDatasourceProxyPath(Ascii("%2e%2e")) == Some(Traversal)
    ensures ValidateDatasourceProxyPath(Ascii("%2E%2e")) == Some(Traversal)
  {
    EscapedDots(Ascii("%2e%2e"));
    EscapedDots(Ascii("%2E%2e"));
  }

  /** Why a path is refused. */
  lemma {:induction false} RefusedBecause(p: Bytes)
    ensures match ValidateDatasourceProxyPath(p)
      case Some(Empty) => p == []
      case Some(TooLong) => |p| > 1024
      case Some(LeadingSlash) => 0 < |p| <= 1024 && p[0] as char == '/'
      case Some(InvalidEscape) => 0 < |p| <= 1024 && p[0] as char != '/' && forall s :: !Encodes(p, s)
      case Some(Traversal) => 0 < |p| <= 1024 && p[0] as char != '/' && exists s :: Encodes(p, s) && Contains(s, Ascii(".."))
      case None => 0 < |p| <= 1024 && p[0] as char != '/' && exists s :: Encodes(p, s) && !Contains(s, Ascii(".."))
  {
    assert Ascii("..") == DOT_DOT;
    forall s
      ensures Decode(p) == Some(s) <==> Encodes(p, s)
    {
      DecodeUndoesEscape(p, s);
    }
    if Decode(p).Some? {
      assert Encodes(p, Decode(p).value);
    }
  }

  // -------------------------------------------------------- the request path

  /** The number that a row of decimal digits writes. */
  function ValueOf(digits: Bytes): int
  {
    if digits == [] then 0 else 10 * ValueOf(Front(digits)) + (Last(digits) as int - '0' as int)
  }

  predicate AreDigits(s: Bytes)
  {
    s != [] && forall b | b in s :: '0' as int <= b as int <= '9' as int
  }

  /** Digits write the number, with no leading zero. */
  lemma {:induction false} DigitsMeaning(n: nat)
    ensures AreDigits(Digits(n)) && ValueOf(Digits(n)) == n
    ensures n > 0 ==> Digits(n)[0] as int != '0' as int
    ensures n == 0 ==> Digits(n) == Ascii("0")
  {
    if n >= 10 {
      DigitsMeaning(n / 10);
      assert Front(Digits(n)) == Digits(n / 10);
    } else {
      assert Front(Digits(n)) == [];
    }
  }

  lemma {:induction false} DecimalMeaning(n: int)
    ensures n >= 0 ==> AreDigits(Decimal(n)) && ValueOf(Decimal(n)) == n
    ensures n < 0 ==> Decimal(n)[0] as int == '-' as int && AreDigits(Decimal(n)[1..]) && ValueOf(Decimal(n)[1..]) == -n
  {
    DigitsMeaning(if n < 0 then -n else n);
  }

  lemma SegmentNames()
    ensures NO_SEGMENT == Ascii("") && API == Ascii("api") && DATASOURCES == Ascii("datasources") && PROXY == Ascii("proxy")
    ensures [SLASH] == Ascii("/")
  {
  }

  lemma JoinCons(head: Bytes, rest: seq<Bytes>)
    requires rest != []
    ensures Join([head] + rest, SLASH) == head + [SLASH] + Join(rest, SLASH)
  {
    assert ([head] + rest)[1..] == rest;
  }

  lemma AsciiConcat(a: string, b: string)
    requires (forall c | c in a :: c as int < 128) && forall c | c in b :: c as int < 128
    ensures (forall c | c in a + b :: c as int < 128) && Ascii(a + b) == Ascii(a) + Ascii(b)
  {
  }

  lemma AsciiSegment(name: string, rest: string)
    requires (forall c | c in name :: c as int < 128) && forall c | c in rest :: c as int < 128
    ensures (forall c | c in name + ("/" + rest) :: c as int < 128)
    ensures Ascii(name + ("/" + rest)) == Ascii(name) + [SLASH] + Ascii(rest)
  {
    SegmentNames();
    AsciiConcat("/", rest);
    AsciiConcat(name, "/" + rest);
    Associate(Ascii(name), [SLASH], Ascii(rest));
  }

  /** A segment, a slash, and then a text with a tail. */
  lemma SegmentText(name: string, rest: string, whole: string, tail: Bytes)
    requires whole == name + ("/" + rest) && forall c | c in whole :: c as int < 128
    ensures (forall c | c in name :: c as int < 128) && (forall c | c in rest :: c as int < 128)
    ensures Ascii(name) + [SLASH] + (Ascii(rest) + tail) == Ascii(whole) + tail
  {
    assert forall c | c in name || c in rest :: c in whole;
    AsciiSegment(name, rest);
    Associate(Ascii(name) + [SLASH], Ascii(rest), tail);
  }

  lemma ProxyText(tail: Bytes)
    ensures PROXY + [SLASH] + tail == Ascii("proxy/") + tail
  {
    SegmentText("proxy", "", "proxy/", tail);
    assert Ascii("") + tail == tail;
  }

  lemma SourcesText(tail: Bytes)
    ensures DATASOURCES + [SLASH] + (Ascii("proxy/") + tail) == Ascii("datasources/proxy/") + tail
  {
    SegmentText("datasources", "proxy/", "datasources/proxy/", tail);
  }

  lemma ApiText(tail: Bytes)
    ensures API + [SLASH] + (Ascii("datasources/proxy/") + tail) == Ascii("api/datasources/proxy/") + tail
  {
    SegmentText("api", "datasources/proxy/", "api/datasources/proxy/", tail);
  }

  lemma RootText(tail: Bytes)
    ensures NO_SEGMENT + [SLASH] + (Ascii("api/datasources/proxy/") + tail) == Ascii("/api/datasources/proxy/") + tail
  {
    SegmentText("", "api/datasources/proxy/", "/api/datasources/proxy/", tail);
  }

  lemma PrefixText(tail: Bytes)
    ensures NO_SEGMENT + [SLASH] + (API + [SLASH] + (DATASOURCES + [SLASH] + (PROXY + [SLASH] + tail))) == Ascii("/api/datasources/proxy/") + tail
  {
    ProxyText(tail);
    SourcesText(tail);
    ApiText(tail);
    RootText(tail);
  }

  /** The request is for /api/datasources/proxy/{id}/{p}. */
  lemma {:induction false} RequestText(id: int, p: Bytes)
    ensures RequestPath(id, p) == Ascii("/api/datasources/proxy/") + (Decimal(id) + Ascii("/") + p)
  {
    var d := [Decimal(id)] + [p];
    JoinCons(Decimal(id), [p]);
    JoinCons(PROXY, d);
    JoinCons(DATASOURCES, [PROXY] + d);
    JoinCons(API, [DATASOURCES] + ([PROXY] + d));
    JoinCons(NO_SEGMENT, [API] + ([DATASOURCES] + ([PROXY] + d)));
    assert ProxyPrefix(id) + [p] == [API] + ([DATASOURCES] + ([PROXY] + d));
    PrefixText(Decimal(id) + [SLASH] + p);
    SegmentNames();
  }

  // ------------------------------------------------------------ containment

  /** Neither decoding, splitting nor cleaning changes such a segment. */
  predicate Plain(seg: Bytes)
  {
    seg != [] && PERCENT !in seg && SLASH !in seg && DOT !in seg
  }

  lemma {:induction false} DigitsArePlain(n: nat)
    ensures Plain(Digits(n))
  {
    if n >= 10 {
      DigitsArePlain(n / 10);
    }
  }

  predicate AllPlain(segs: seq<Bytes>)
  {
    forall seg | seg in segs :: Plain(seg)
  }

  lemma PrefixIsPlain(id: int)
    ensures AllPlain(ProxyPrefix(id))
  {
    DigitsArePlain(if id < 0 then -id else id);
    assert Plain(API) && Plain(DATASOURCES) && Plain(PROXY);
  }

  lemma {:induction false} ExpandedPlain(segs: seq<Bytes>)
    requires AllPlain(segs)
    ensures Expanded(segs) == segs && AllDecode(segs)
  {
    if segs != [] {
      assert segs == [segs[0]] + segs[1..];
      assert Plain(segs[0]);
      ExpandedPlain(segs[1..]);
      DecodePlain(segs[0]);
      SplitWhole(segs[0], SLASH);
    }
  }

  lemma {:induction false} KeepPlain(segs: seq<Bytes>)
    requires AllPlain(segs)
    ensures Keep(segs) == segs && DOT_DOT !in segs
  {
    if segs != [] {
      assert segs == Front(segs) + [Last(segs)];
      KeepPlain(Front(segs));
      assert Plain(Last(segs)) && DOT in DOT_DOT && DOT in DOT_SEGMENT;
    }
  }

  /** Cleaning left ++ prefix ++ tail leaves the prefix standing. */
  lemma PrefixStays(left: seq<Bytes>, id: int, tail: seq<Bytes>)
    requires DOT_DOT !in tail
    ensures Clean(left + (ProxyPrefix(id) + tail)) == Clean(left) + (ProxyPrefix(id) + Keep(tail))
  {
    var prefix := ProxyPrefix(id);
    PrefixIsPlain(id);
    KeepPlain(prefix);
    FilterConcat(IsReal, prefix, tail);
    CleanAppend(left, prefix + tail);
  }

  lemma RequestSegments(id: int, p: Bytes)
    ensures Split(RequestPath(id, p), SLASH) == [NO_SEGMENT] + (ProxyPrefix(id) + Split(p, SLASH))
  {
    PrefixIsPlain(id);
    var front := [NO_SEGMENT] + ProxyPrefix(id);
    forall seg | seg in front
      ensures SLASH !in seg
    {
      assert seg == NO_SEGMENT || seg in ProxyPrefix(id);
    }
    SplitOfJoinLast(front, p, SLASH);
    Associate([NO_SEGMENT], ProxyPrefix(id), [p]);
    Associate([NO_SEGMENT], ProxyPrefix(id), Split(p, SLASH));
  }

  lemma CleanEmptyLast(segs: seq<Bytes>)
    ensures Clean(segs + [NO_SEGMENT]) == Clean(segs)
  {
    assert Front(segs + [NO_SEGMENT]) == segs;
  }

  /** Likewise when the path starts with the empty segment of its slash. */
  lemma RequestStays(base: seq<Bytes>, id: int, tail: seq<Bytes>)
    requires DOT_DOT !in tail
    ensures Clean(base + ([NO_SEGMENT] + (ProxyPrefix(id) + tail))) == Clean(base) + (ProxyPrefix(id) + Keep(tail))
  {
    PrefixStays(base + [NO_SEGMENT], id, tail);
    CleanEmptyLast(base);
    Associate(base, [NO_SEGMENT], ProxyPrefix(id) + tail);
  }

  /** The request before decoding: whatever path the server's base URL has, an
      accepted path stays below /api/datasources/proxy/{id} of it. */
  lemma {:induction false} ContainedBeforeDecoding(base: seq<Bytes>, id: int, p: Bytes)
    requires ValidateDatasourceProxyPath(p).None?
    ensures Clean(base + Split(RequestPath(id, p), SLASH)) == Clean(base) + (ProxyPrefix(id) + Keep(Split(p, SLASH)))
  {
    NoTraversalSegment(p);
    RequestSegments(id, p);
    RequestStays(base, id, Split(p, SLASH));
  }

  lemma ExpandedRequest(left: seq<Bytes>, id: int, tail: seq<Bytes>)
    ensures Expanded(left + (ProxyPrefix(id) + tail)) == Expanded(left) + (ProxyPrefix(id) + Expanded(tail))
  {
    PrefixIsPlain(id);
    ExpandedPlain(ProxyPrefix(id));
    ExpandedAppend(ProxyPrefix(id), tail);
    ExpandedAppend(left, ProxyPrefix(id) + tail);
  }

  lemma ExpandedOne(seg: Bytes)
    requires Decode(seg).Some?
    ensures Expanded([seg]) == Split(Decode(seg).value, SLASH)
  {
    assert [seg][1..] == [];
  }

  lemma RequestParts(id: int, p: Bytes)
    requires Decode(p).Some?
    ensures AllDecode([NO_SEGMENT] + (ProxyPrefix(id) + [p]))
  {
    PrefixIsPlain(id);
    ExpandedPlain(ProxyPrefix(id));
    assert forall seg | seg in [NO_SEGMENT] + (ProxyPrefix(id) + [p]) :: seg == NO_SEGMENT || seg in ProxyPrefix(id) || seg == p;
  }

  lemma DecodedRequest(id: int, p: Bytes)
    requires Decode(p).Some?
    ensures Decode(RequestPath(id, p)).Some?
    ensures Split(Decode(RequestPath(id, p)).value, SLASH) == [NO_SEGMENT] + (ProxyPrefix(id) + Split(Decode(p).value, SLASH))
  {
    RequestParts(id, p);
    DecodeOfJoin([NO_SEGMENT] + (ProxyPrefix(id) + [p]));
    ExpandedRequest([NO_SEGMENT], id, [p]);
    ExpandedOne(p);
    ExpandedOne(NO_SEGMENT);
  }

  /** The request decoded before cleaning: likewise. */
  lemma {:induction false} ContainedAfterDecoding(base: seq<Bytes>, id: int, p: Bytes)
    requires ValidateDatasourceProxyPath(p).None?
    ensures var request := Decode(RequestPath(id, p));
      && request.Some?
      && Clean(base + Split(request.value, SLASH)) == Clean(base) + (ProxyPrefix(id) + Keep(Split(Decode(p).value, SLASH)))
  {
    DecodedRequest(id, p);
    NoTraversalSegment(p);
    RequestStays(base, id, Split(Decode(p).value, SLASH));
  }

  // ------------------------------------------- cleaning, decoding, cleaning

  lemma UnrealExpandsToNothing(seg: Bytes)
    requires !IsReal(seg)
    ensures Keep(Expanded([seg])) == []
  {
    DecodePlain(seg);
    SplitWhole(seg, SLASH);
    ExpandedOne(seg);
    FilterAppend(IsReal, [], seg);
    assert [] + [seg] == [seg];
  }

  /** Dropping empty and "." segments before decoding changes nothing that
      dropping them afterwards would not. */
  lemma {:induction false} KeepThenExpand(segs: seq<Bytes>)
    ensures Keep(Expanded(Keep(segs))) == Keep(Expanded(segs))
  {
    if segs != [] {
      var init, seg := Front(segs), Last(segs);
      assert segs == init + [seg];
      KeepThenExpand(init);
      ExpandedAppend(init, [seg]);
      FilterConcat(IsReal, Expanded(init), Expanded([seg]));
      if IsReal(seg) {
        ExpandedAppend(Keep(init), [seg]);
        FilterConcat(IsReal, Expanded(Keep(init)), Expanded([seg]));
      } else {
        UnrealExpandsToNothing(seg);
        assert Keep(segs) == Keep(init);
        assert Keep(Expanded(segs)) == Keep(Expanded(init));
      }
    }
  }

  /** What URL.JoinPath sends: the cleaned path, still encoded. */
  function Sent(base: seq<Bytes>, id: int, p: Bytes): Bytes
  {
    Join([NO_SEGMENT] + Clean(base + Split(RequestPath(id, p), SLASH)), SLASH)
  }

  lemma {:induction false} CleanEmptyFirst(segs: seq<Bytes>)
    ensures Clean([NO_SEGMENT] + segs) == Clean(segs)
  {
    if segs != [] {
      assert Front([NO_SEGMENT] + segs) == [NO_SEGMENT] + Front(segs) && Last([NO_SEGMENT] + segs) == Last(segs);
      CleanEmptyFirst(Front(segs));
    } else {
      assert [NO_SEGMENT] + segs == [NO_SEGMENT];
      assert Front([NO_SEGMENT]) == [];
    }
  }

  lemma SegmentsDecode(base: seq<Bytes>, id: int, raw: seq<Bytes>)
    requires AllDecode(Clean(base)) && AllDecode(raw)
    ensures AllDecode([NO_SEGMENT] + Clean(base) + (ProxyPrefix(id) + Keep(raw))) && AllDecode(Keep(raw))
  {
    PrefixIsPlain(id);
    ExpandedPlain(ProxyPrefix(id));
    forall seg
      ensures seg in Keep(raw) ==> seg in raw
    {
      FilterMembers(IsReal, raw, seg);
    }
  }

  lemma TailHasNoTraversal(p: Bytes)
    requires Decode(p).Some? && !Contains(Decode(p).value, DOT_DOT)
    ensures DOT_DOT !in Expanded(Keep(Split(p, SLASH)))
  {
    var raw := Split(p, SLASH);
    DecodedSegments(p);
    NoTraversalSegment(p);
    forall seg
      ensures seg in Keep(raw) ==> seg in raw
    {
      FilterMembers(IsReal, raw, seg);
    }
    ExpandedMember(raw, DOT_DOT);
    ExpandedMember(Keep(raw), DOT_DOT);
  }

  lemma ExpandedLeft(base: seq<Bytes>)
    ensures Clean(Expanded([NO_SEGMENT] + base)) == Clean(Expanded(base))
  {
    ExpandedAppend([NO_SEGMENT], base);
    assert Expanded([NO_SEGMENT]) == [NO_SEGMENT];
    CleanEmptyFirst(Expanded(base));
  }

  /** The segments that Grafana sees after decoding what was sent. */
  lemma ReceivedSegments(base: seq<Bytes>, id: int, p: Bytes)
    requires ValidateDatasourceProxyPath(p).None? && AllDecode(Clean(base))
    ensures Decode(Sent(base, id, p)).Some?
    ensures Split(Decode(Sent(base, id, p)).value, SLASH)
         == Expanded([NO_SEGMENT] + Clean(base)) + (ProxyPrefix(id) + Expanded(Keep(Split(p, SLASH))))
  {
    var raw := Split(p, SLASH);
    var left := [NO_SEGMENT] + Clean(base);
    ContainedBeforeDecoding(base, id, p);
    Associate([NO_SEGMENT], Clean(base), ProxyPrefix(id) + Keep(raw));
    DecodedSegments(p);
    SegmentsDecode(base, id, raw);
    DecodeOfJoin(left + (ProxyPrefix(id) + Keep(raw)));
    ExpandedRequest(left, id, Keep(raw));
  }

  /** The request as it is made, cleaned, sent, decoded by Grafana and cleaned
      again, is still below the proxy prefix, and reaches the resource that
      decoding once and cleaning once denotes. */
  lemma {:induction false} SentRequestIsContained(base: seq<Bytes>, id: int, p: Bytes)
    requires ValidateDatasourceProxyPath(p).None? && AllDecode(Clean(base))
    ensures var received := Decode(Sent(base, id, p));
      && received.Some?
      && Clean(Split(received.value, SLASH))
         == Clean(Expanded(Clean(base))) + (ProxyPrefix(id) + Keep(Split(Decode(p).value, SLASH)))
  {
    var raw := Split(p, SLASH);
    ReceivedSegments(base, id, p);
    TailHasNoTraversal(p);
    PrefixStays(Expanded([NO_SEGMENT] + Clean(base)), id, Expanded(Keep(raw)));
    KeepThenExpand(raw);
    DecodedSegments(p);
    ExpandedLeft(Clean(base));
  }

  /** Without the check the prefix would not hold. */
  lemma TraversalWouldEscape(id: int)
    ensures ValidateDatasourceProxyPath(DOT_DOT) == Some(Traversal)
    ensures Clean(Split(RequestPath(id, DOT_DOT), SLASH)) == [API, DATASOURCES, PROXY]
  {
    DotDotDecodesToItself();
    assert OccursAt(DOT_DOT, DOT_DOT, 0);
    RequestSegments(id, DOT_DOT);
    var segs := [NO_SEGMENT] + (ProxyPrefix(id) + [DOT_DOT]);
    assert Front(segs) == [NO_SEGMENT] + (ProxyPrefix(id) + []) && Last(segs) == DOT_DOT;
    PrefixStays([NO_SEGMENT], id, []);
    assert Clean([NO_SEGMENT]) == [];
    assert Clean(Front(segs)) == ProxyPrefix(id);
    assert Front(ProxyPrefix(id)) == [API, DATASOURCES, PROXY];
  }
}
