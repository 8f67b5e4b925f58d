// Content-length framing over a byte stream: the parser a receive runs on the
// unread output of a managed process. The header block follows the Header Part
// of the Base Protocol in the Language Server Protocol 3.17.
module Framing {
  import opened Outcomes

  type Byte = b: int | 0 <= b < 256

  const CR: Byte := 13
  const LF: Byte := 10
  const COLON: Byte := 58
  const SPACE: Byte := 32
  const PLUS: Byte := 43
  const MAX_CONTENT_LENGTH: nat := 16 * 1024 * 1024
  const USIZE_MAX: nat := 0xFFFF_FFFF_FFFF_FFFF

  // The bytes of "content-length".
  const NAME_LENGTH: nat := 14

  function NameByte(i: nat): Byte {
    match i
    case 0 => 99
    case 1 => 111
    case 2 => 110
    case 3 => 116
    case 4 => 101
    case 5 => 110
    case 6 => 116
    case 7 => 45
    case 8 => 108
    case 9 => 101
    case 10 => 110
    case 11 => 103
    case 12 => 116
    case _ => 104
  }

  // ------------------------------------------------------------------- UTF-8

  predicate Tail(b: Byte) {
    0x80 <= b <= 0xBF
  }

  // Bytes of the well-formed character at that place, or zero.
  function CharLength(s: seq<Byte>, i: nat): (n: nat)
    requires i < |s|
    ensures i + n <= |s|
  {
    var left := |s| - i;
    if s[i] < 0x80 then 1
    else if 0xC2 <= s[i] <= 0xDF && left >= 2 && Tail(s[i + 1]) then 2
    else if left >= 3 && Tail(s[i + 2]) &&
            (if s[i] == 0xE0 then 0xA0 <= s[i + 1] <= 0xBF
             else if s[i] == 0xED then 0x80 <= s[i + 1] <= 0x9F
             else 0xE1 <= s[i] <= 0xEF && Tail(s[i + 1])) then 3
    else if left >= 4 && Tail(s[i + 2]) && Tail(s[i + 3]) &&
            (if s[i] == 0xF0 then 0x90 <= s[i + 1] <= 0xBF
             else if s[i] == 0xF4 then 0x80 <= s[i + 1] <= 0x8F
             else 0xF1 <= s[i] <= 0xF3 && Tail(s[i + 1])) then 4
    else 0
  }

  predicate Utf8From(s: seq<Byte>, i: nat)
    requires i <= |s|
    decreases |s| - i
  {
    i == |s| || (CharLength(s, i) > 0 && Utf8From(s, i + CharLength(s, i)))
  }

  predicate Utf8(s: seq<Byte>) {
    Utf8From(s, 0)
  }

  // Code points of Unicode without the surrogates.
  predicate Scalar(c: int) {
    0 <= c < 0x11_0000 && !(0xD800 <= c < 0xE000)
  }

  // The one encoding of a code point, as in section 3 of RFC 3629.
  function Encoded(c: int): seq<Byte>
    requires Scalar(c)
  {
    if c < 0x80 then [c]
    else if c < 0x800 then [0xC0 + c / 64, 0x80 + c % 64]
    else if c < 0x1_0000 then [0xE0 + c / 4096, 0x80 + c / 64 % 64, 0x80 + c % 64]
    else [0xF0 + c / 0x4_0000, 0x80 + c / 4096 % 64, 0x80 + c / 64 % 64, 0x80 + c % 64]
  }

  function EncodedAll(cs: seq<int>): seq<Byte>
    requires forall c | c in cs :: Scalar(c)
  {
    if cs == [] then [] else Encoded(cs[0]) + EncodedAll(cs[1..])
  }

  lemma ScalarIsRead(c: int, s: seq<Byte>, i: nat)
    requires Scalar(c) && i < |s| && Encoded(c) <= s[i..]
    ensures CharLength(s, i) == |Encoded(c)|
  {
    assert forall k | 0 <= k < |Encoded(c)| :: s[i + k] == s[i..][k] == Encoded(c)[k];
  }

  lemma TwoBytes(a: int, b: int) returns (c: int)
    requires 0xC2 <= a <= 0xDF && 0x80 <= b <= 0xBF
    ensures Scalar(c) && 0x80 <= c < 0x800 && 0xC0 + c / 64 == a && 0x80 + c % 64 == b
  {
    c := (a - 0xC0) * 64 + (b - 0x80);
  }

  lemma ThreeBytes(a: int, b: int, d: int) returns (c: int)
    requires 0xE0 <= a <= 0xEF && 0x80 <= b <= 0xBF && 0x80 <= d <= 0xBF
    requires (a == 0xE0 ==> 0xA0 <= b) && (a == 0xED ==> b <= 0x9F)
    ensures Scalar(c) && 0x800 <= c < 0x1_0000
    ensures 0xE0 + c / 4096 == a && 0x80 + c / 64 % 64 == b && 0x80 + c % 64 == d
  {
    var high := (a - 0xE0) * 64 + (b - 0x80);
    c := high * 64 + (d - 0x80);
    assert c / 64 == high && c / 4096 == high / 64;
  }

  lemma FourBytes(a: int, b: int, d: int, e: int) returns (c: int)
    requires 0xF0 <= a <= 0xF4 && 0x80 <= b <= 0xBF && 0x80 <= d <= 0xBF && 0x80 <= e <= 0xBF
    requires (a == 0xF0 ==> 0x90 <= b) && (a == 0xF4 ==> b <= 0x8F)
    ensures Scalar(c) && 0x1_0000 <= c
    ensures 0xF0 + c / 0x4_0000 == a && 0x80 + c / 4096 % 64 == b && 0x80 + c / 64 % 64 == d && 0x80 + c % 64 == e
  {
    var top := (a - 0xF0) * 64 + (b - 0x80);
    var high := top * 64 + (d - 0x80);
    c := high * 64 + (e - 0x80);
    assert c / 64 == high && c / 4096 == top && c / 0x4_0000 == top / 64;
  }

  lemma ReadIsScalar(s: seq<Byte>, i: nat) returns (c: int)
    requires i < |s| && CharLength(s, i) > 0
    ensures Scalar(c) && Encoded(c) == s[i..i + CharLength(s, i)]
  {
    var n := CharLength(s, i);
    if n == 1 {
      c := s[i];
    } else if n == 2 {
      c := TwoBytes(s[i], s[i + 1]);
    } else if n == 3 {
      c := ThreeBytes(s[i], s[i + 1], s[i + 2]);
    } else {
      c := FourBytes(s[i], s[i + 1], s[i + 2], s[i + 3]);
    }
  }

  lemma EncodingSplits(cs: seq<int>, s: seq<Byte>, i: nat)
    requires cs != [] && (forall c | c in cs :: Scalar(c)) && i <= |s| && s[i..] == EncodedAll(cs)
    ensures var n := |Encoded(cs[0])|;
            Encoded(cs[0]) <= s[i..] && i + n <= |s| && s[i + n..] == EncodedAll(cs[1..])
  {
    var first, rest := Encoded(cs[0]), EncodedAll(cs[1..]);
    assert s[i..] == first + rest;
    assert s[i + |first|..] == s[i..][|first|..];
  }

  lemma {:induction false} EncodingIsUtf8From(cs: seq<int>, s: seq<Byte>, i: nat)
    requires (forall c | c in cs :: Scalar(c)) && i <= |s| && s[i..] == EncodedAll(cs)
    ensures Utf8From(s, i)
    decreases |cs|
  {
    if cs != [] {
      EncodingSplits(cs, s, i);
      ScalarIsRead(cs[0], s, i);
      EncodingIsUtf8From(cs[1..], s, i + |Encoded(cs[0])|);
    }
  }

  lemma {:induction false} Utf8FromIsEncoding(s: seq<Byte>, i: nat) returns (cs: seq<int>)
    requires i <= |s| && Utf8From(s, i)
    ensures (forall c | c in cs :: Scalar(c)) && s[i..] == EncodedAll(cs)
    decreases |s| - i
  {
    if i == |s| {
      cs := [];
    } else {
      var n := CharLength(s, i);
      var c := ReadIsScalar(s, i);
      var rest := Utf8FromIsEncoding(s, i + n);
      cs := [c] + rest;
      assert s[i..] == s[i..i + n] + s[i + n..];
    }
  }

  ghost predicate EncodesSome(s: seq<Byte>) {
    exists cs: seq<int> :: (forall c | c in cs :: Scalar(c)) && s == EncodedAll(cs)
  }

  // Bytes are accepted as text exactly when they encode some code points: nothing
  // overlong, no surrogate, nothing past the last code point, nothing cut short.
  lemma Utf8Exactly(s: seq<Byte>)
    ensures Utf8(s) <==> EncodesSome(s)
  {
    assert s[0..] == s;
    if Utf8(s) {
      var cs := Utf8FromIsEncoding(s, 0);
    } else if cs: seq<int> :| (forall c | c in cs :: Scalar(c)) && s == EncodedAll(cs) {
      EncodingIsUtf8From(cs, s, 0);
    }
  }

  // ------------------------------------------------------------ Header block

  predicate EndsAt(s: seq<Byte>, i: nat) {
    i + 4 <= |s| && s[i] == CR && s[i + 1] == LF && s[i + 2] == CR && s[i + 3] == LF
  }

  function EndFrom(s: seq<Byte>, i: nat): (r: Option<nat>)
    ensures r.Some? ==> i + 4 <= r.value <= |s| && EndsAt(s, r.value - 4)
    ensures r.Some? ==> forall k: nat | i <= k < r.value - 4 :: !EndsAt(s, k)
    ensures r.None? ==> forall k: nat | i <= k :: !EndsAt(s, k)
    decreases |s| - i
  {
    if i + 4 > |s| then None
    else if EndsAt(s, i) then Some(i + 4)
    else EndFrom(s, i + 1)
  }

  // One past the first empty line.
  function HeaderEnd(s: seq<Byte>): Option<nat> {
    EndFrom(s, 0)
  }

  function IndexFrom(s: seq<Byte>, b: Byte, i: nat): (r: Option<nat>)
    ensures r.Some? ==> i <= r.value < |s| && s[r.value] == b && forall k | i <= k < r.value :: s[k] != b
    ensures r.None? ==> forall k | i <= k < |s| :: s[k] != b
    decreases |s| - i
  {
    if i >= |s| then None else if s[i] == b then Some(i) else IndexFrom(s, b, i + 1)
  }

  function IndexOf(s: seq<Byte>, b: Byte): Option<nat> {
    IndexFrom(s, b, 0)
  }

  function Chomp(line: seq<Byte>): seq<Byte> {
    if line != [] && line[|line| - 1] == CR then line[..|line| - 1] else line
  }

  function Lower(b: Byte): Byte {
    if 65 <= b <= 90 then b + 32 else b
  }

  function LengthName(): seq<Byte> {
    seq(NAME_LENGTH, i requires 0 <= i < NAME_LENGTH => NameByte(i))
  }

  predicate NameFrom(s: seq<Byte>, i: nat)
    requires i <= |s|
    decreases |s| - i
  {
    i == |s| || (Lower(s[i]) == NameByte(i) && NameFrom(s, i + 1))
  }

  // Equal to "content-length" in any letter case.
  predicate NamesLength(s: seq<Byte>) {
    |s| == NAME_LENGTH && NameFrom(s, 0)
  }

  predicate Space1(b: Byte) {
    9 <= b <= 13 || b == SPACE
  }

  predicate Space2(a: Byte, b: Byte) {
    a == 0xC2 && (b == 0x85 || b == 0xA0)
  }

  predicate Space3(a: Byte, b: Byte, c: Byte) {
    || (a == 0xE1 && b == 0x9A && c == 0x80)
    || (a == 0xE2 && b == 0x80 && (0x80 <= c <= 0x8A || c == 0xA8 || c == 0xA9 || c == 0xAF))
    || (a == 0xE2 && b == 0x81 && c == 0x9F)
    || (a == 0xE3 && b == 0x80 && c == 0x80)
  }

  function LeftEdge(s: seq<Byte>, i: nat): (r: nat)
    requires i <= |s|
    ensures i <= r <= |s|
    decreases |s| - i
  {
    if i + 1 <= |s| && Space1(s[i]) then LeftEdge(s, i + 1)
    else if i + 2 <= |s| && Space2(s[i], s[i + 1]) then LeftEdge(s, i + 2)
    else if i + 3 <= |s| && Space3(s[i], s[i + 1], s[i + 2]) then LeftEdge(s, i + 3)
    else i
  }

  function RightEdge(s: seq<Byte>, lo: nat, n: nat): (r: nat)
    requires lo <= n <= |s|
    ensures lo <= r <= n
  {
    if n >= lo + 1 && Space1(s[n - 1]) then RightEdge(s, lo, n - 1)
    else if n >= lo + 2 && Space2(s[n - 2], s[n - 1]) then RightEdge(s, lo, n - 2)
    else if n >= lo + 3 && Space3(s[n - 3], s[n - 2], s[n - 1]) then RightEdge(s, lo, n - 3)
    else n
  }

  // Without the white space around it.
  function Trim(s: seq<Byte>): seq<Byte> {
    var lo := LeftEdge(s, 0);
    s[lo..RightEdge(s, lo, |s|)]
  }

  predicate Digit(b: Byte) {
    48 <= b <= 57
  }

  // The number that s[lo..n] spells.
  function Value(s: seq<Byte>, lo: nat, n: nat): int
    requires lo <= n <= |s|
  {
    if n == lo then 0 else 10 * Value(s, lo, n - 1) + (s[n - 1] as int - 48)
  }

  // An unsigned machine word in decimal: an optional plus, then digits.
  function ParseSize(s: seq<Byte>): (r: Option<nat>)
  {
    var lo := if s != [] && s[0] == PLUS then 1 else 0;
    if lo < |s| && (forall k | lo <= k < |s| :: Digit(s[k])) && 0 <= Value(s, lo, |s|) <= USIZE_MAX
    then Some(Value(s, lo, |s|)) else None
  }

  function LengthOf(line: seq<Byte>): Option<nat> {
    match IndexOf(line, COLON)
    case Some(i) =>
      if NamesLength(line[..i]) then ParseSize(Trim(line[i + 1..])) else None
    case None => None
  }

  // The first line of the block that declares a length.
  function Declared(header: seq<Byte>): Option<nat>
    decreases |header|
  {
    if header == [] then None
    else
      match IndexOf(header, LF)
      case Some(i) =>
        var length := LengthOf(Chomp(header[..i]));
        if length.Some? then length else Declared(header[i + 1..])
      case None => LengthOf(header)
  }

  // ------------------------------------------------------------------ Frames

  datatype ContentFrame = NeedMore | Ready(message: seq<Byte>, consumed: nat) | TooLarge(total: nat)

  function Extract(buffer: seq<Byte>): (r: ContentFrame)
    ensures r.Ready? ==> 4 <= r.consumed <= |buffer|
    ensures r.TooLarge? ==> MAX_CONTENT_LENGTH < r.total <= |buffer|
  {
    match HeaderEnd(buffer)
    case None => NeedMore
    case Some(end) =>
      if !Utf8(buffer[..end]) then NeedMore
      else
        match Declared(buffer[..end])
        case None => NeedMore
        case Some(length) =>
          if end + length > USIZE_MAX then NeedMore
          else if length > MAX_CONTENT_LENGTH then
            if |buffer| >= end + length then TooLarge(end + length) else NeedMore
          else if |buffer| < end + length then NeedMore
          else if Utf8(buffer[end..end + length]) then Ready(buffer[end..end + length], end + length)
          else NeedMore
  }

  predicate OversizePending(buffer: seq<Byte>) {
    match HeaderEnd(buffer)
    case None => false
    case Some(end) =>
      Utf8(buffer[..end]) && Declared(buffer[..end]).Some? && Declared(buffer[..end]).value > MAX_CONTENT_LENGTH
  }

  lemma HeaderEndIs(s: seq<Byte>, end: nat)
    requires end >= 4 && EndsAt(s, end - 4) && forall i: nat | i < end - 4 :: !EndsAt(s, i)
    ensures HeaderEnd(s) == Some(end)
  {
  }

  lemma HeaderEndExtends(s: seq<Byte>, more: seq<Byte>)
    requires HeaderEnd(s).Some?
    ensures HeaderEnd(s + more) == HeaderEnd(s)
  {
    var end := HeaderEnd(s).value;
    assert EndsAt(s + more, end - 4);
    forall i: nat | i < end - 4 ensures !EndsAt(s + more, i) {
      assert EndsAt(s + more, i) ==> EndsAt(s, i);
    }
    HeaderEndIs(s + more, end);
  }

  // An answer is final: more bytes never change it.
  lemma AnswersAreStable(buffer: seq<Byte>, more: seq<Byte>)
    requires !Extract(buffer).NeedMore?
    ensures Extract(buffer + more) == Extract(buffer)
  {
    HeaderEndExtends(buffer, more);
    var end := HeaderEnd(buffer).value;
    assert (buffer + more)[..end] == buffer[..end];
    var length := Declared(buffer[..end]).value;
    assert (buffer + more)[end..end + length] == buffer[end..end + length];
  }

  // A header block and the body it declares.
  datatype Frame = Frame(header: seq<Byte>, body: seq<Byte>) {
    predicate WellFormed() {
      && HeaderEnd(header) == Some(|header|) && Utf8(header)
      && Declared(header) == Some(|body|)
      && Utf8(body) && |body| <= MAX_CONTENT_LENGTH && |header| + |body| <= USIZE_MAX
    }

    function Bytes(): seq<Byte> {
      header + body
    }
  }

  lemma ExtractsAt(buffer: seq<Byte>, end: nat, length: nat)
    requires HeaderEnd(buffer) == Some(end) && Utf8(buffer[..end]) && Declared(buffer[..end]) == Some(length)
    requires end + length <= |buffer| && end + length <= USIZE_MAX
    ensures Extract(buffer)
            == if length > MAX_CONTENT_LENGTH then TooLarge(end + length)
               else if Utf8(buffer[end..end + length]) then Ready(buffer[end..end + length], end + length)
               else NeedMore
    ensures OversizePending(buffer) <==> length > MAX_CONTENT_LENGTH
  {
  }

  lemma FrameParts(header: seq<Byte>, body: seq<Byte>, more: seq<Byte>)
    requires HeaderEnd(header).Some?
    ensures var all := header + body + more;
            && HeaderEnd(all) == HeaderEnd(header)
            && all[..|header|] == header && all[|header|..|header| + |body|] == body
  {
    assert header + body + more == header + (body + more);
    HeaderEndExtends(header, body + more);
  }

  // A frame that has come whole, whatever follows it, is read exactly when its
  // body is UTF-8 within the limit. Over the limit it is refused; within the
  // limit but not UTF-8 it waits, and no timeout clears it.
  lemma WholeFrameIsReadExactly(header: seq<Byte>, body: seq<Byte>, more: seq<Byte>)
    requires HeaderEnd(header) == Some(|header|) && Utf8(header) && Declared(header) == Some(|body|)
    requires |header| + |body| <= USIZE_MAX
    ensures var buffer := header + body + more;
            && Extract(buffer) == (if |body| > MAX_CONTENT_LENGTH then TooLarge(|header| + |body|)
                                   else if Utf8(body) then Ready(body, |header| + |body|) else NeedMore)
            && (OversizePending(buffer) <==> |body| > MAX_CONTENT_LENGTH)
  {
    FrameParts(header, body, more);
    ExtractsAt(header + body + more, |header|, |body|);
  }

  // A header block that is not UTF-8 is never read, and never cleared.
  lemma UndecodableHeaderWaits(header: seq<Byte>, more: seq<Byte>)
    requires HeaderEnd(header) == Some(|header|) && !Utf8(header)
    ensures Extract(header + more) == NeedMore && !OversizePending(header + more)
  {
    HeaderEndExtends(header, more);
    assert (header + more)[..|header|] == header;
  }

  lemma FrameIsRead(f: Frame, more: seq<Byte>)
    requires f.WellFormed()
    ensures Extract(f.Bytes() + more) == Ready(f.body, |f.Bytes()|)
  {
    WholeFrameIsReadExactly(f.header, f.body, more);
  }

  // While the header or the body it announces is incomplete, the parser asks for
  // more and does not take the frame for an oversize one.
  lemma PartWaits(header: seq<Byte>, length: nat, part: seq<Byte>)
    requires HeaderEnd(header) == Some(|header|) && Declared(header) == Some(length)
    requires length <= MAX_CONTENT_LENGTH
    requires part < header || (header <= part && |part| < |header| + length)
    ensures Extract(part) == NeedMore && !OversizePending(part)
  {
    if part < header {
      HeaderWaits(header, part);
    } else {
      assert part == header + part[|header|..];
      HeaderEndExtends(header, part[|header|..]);
      assert part[..|header|] == header;
      BodyWaits(part, |header|, length);
    }
  }

  lemma HeaderWaits(header: seq<Byte>, part: seq<Byte>)
    requires HeaderEnd(header) == Some(|header|) && part < header
    ensures Extract(part) == NeedMore && !OversizePending(part)
  {
    forall i: nat ensures !EndsAt(part, i) {
      assert EndsAt(part, i) ==> EndsAt(header, i);
    }
    assert HeaderEnd(part) == None;
  }

  lemma BodyWaits(part: seq<Byte>, end: nat, length: nat)
    requires HeaderEnd(part) == Some(end) && Declared(part[..end]) == Some(length)
    requires length <= MAX_CONTENT_LENGTH && |part| < end + length
    ensures Extract(part) == NeedMore && !OversizePending(part)
  {
  }

  // ------------------------------------------- Header blocks of the protocol

  datatype Field = Field(name: seq<Byte>, value: seq<Byte>)

  // Printable ASCII.
  predicate Plain(s: seq<Byte>) {
    forall b | b in s :: 32 <= b <= 126
  }

  predicate PlainField(f: Field) {
    Plain(f.name) && Plain(f.value) && COLON !in f.name
  }

  function Line(f: Field): seq<Byte> {
    f.name + [COLON, SPACE] + f.value
  }

  function Block(fields: seq<Field>): seq<Byte> {
    if fields == [] then [CR, LF] else Line(fields[0]) + [CR, LF] + Block(fields[1..])
  }

  // What the protocol says the block declares.
  function FieldLength(f: Field): Option<nat> {
    if NamesLength(f.name) then ParseSize(Trim(f.value)) else None
  }

  function FirstLength(fields: seq<Field>): Option<nat> {
    if fields == [] then None
    else if FieldLength(fields[0]).Some? then FieldLength(fields[0])
    else FirstLength(fields[1..])
  }

  lemma HeaderEndSkips(front: seq<Byte>, rest: seq<Byte>)
    requires forall i: nat | i < |front| :: !EndsAt(front + rest, i)
    ensures HeaderEnd(front + rest)
            == match HeaderEnd(rest) case Some(end) => Some(|front| + end) case None => None
  {
    var s := front + rest;
    forall i: nat ensures EndsAt(s, |front| + i) <==> EndsAt(rest, i) {
    }
    match HeaderEnd(rest) {
      case Some(end) =>
        forall i: nat | i < |front| + end - 4 ensures !EndsAt(s, i) {
          if i >= |front| {
            assert EndsAt(s, |front| + (i - |front|)) <==> EndsAt(rest, i - |front|);
          }
        }
        assert EndsAt(rest, end - 4) && EndsAt(s, |front| + (end - 4));
        HeaderEndIs(s, |front| + end);
      case None =>
        forall i: nat ensures !EndsAt(s, i) {
          if i >= |front| {
            assert EndsAt(s, |front| + (i - |front|)) <==> EndsAt(rest, i - |front|);
          }
        }
    }
  }

  lemma NoEndInLine(line: seq<Byte>, rest: seq<Byte>)
    requires CR !in line
    ensures forall i: nat | i < |line| :: !EndsAt(line + rest, i)
  {
  }

  lemma PlainLine(f: Field)
    requires PlainField(f)
    ensures Plain(Line(f)) && CR !in Line(f) && LF !in Line(f) && |Line(f)| >= 2
  {
  }

  // The block ends at its one empty line.
  lemma {:induction false} BlockEnds(fields: seq<Field>)
    requires fields != [] && forall f | f in fields :: PlainField(f)
    ensures HeaderEnd(Block(fields)) == Some(|Block(fields)|)
  {
    PlainLine(fields[0]);
    if |fields| == 1 {
      assert Block(fields[1..]) == [CR, LF];
    } else {
      BlockEnds(fields[1..]);
      BlockStarts(fields[1..]);
    }
    LineEnds(Line(fields[0]), Block(fields[1..]));
  }

  lemma BlockStarts(fields: seq<Field>)
    requires fields != [] && PlainField(fields[0])
    ensures Block(fields) != [] && Block(fields)[0] != CR
  {
    PlainLine(fields[0]);
    assert Block(fields)[0] == Line(fields[0])[0] && Line(fields[0])[0] in Line(fields[0]);
  }

  lemma LineEnds(line: seq<Byte>, rest: seq<Byte>)
    requires CR !in line && (rest == [CR, LF] || (HeaderEnd(rest) == Some(|rest|) && rest[0] != CR))
    ensures HeaderEnd(line + [CR, LF] + rest) == Some(|line| + 2 + |rest|)
  {
    assert line + [CR, LF] + rest == line + ([CR, LF] + rest);
    NoEndInLine(line, [CR, LF] + rest);
    HeaderEndSkips(line, [CR, LF] + rest);
    if rest[0] == CR {
      HeaderEndIs([CR, LF] + rest, 4);
    } else {
      HeaderEndSkips([CR, LF], rest);
    }
  }

  lemma {:induction false} AsciiIsUtf8(s: seq<Byte>, i: nat)
    requires i <= |s| && forall k | i <= k < |s| :: s[k] < 0x80
    ensures Utf8From(s, i)
    decreases |s| - i
  {
    if i < |s| {
      AsciiIsUtf8(s, i + 1);
    }
  }

  lemma {:induction false} BlockIsUtf8(fields: seq<Field>)
    requires forall f | f in fields :: PlainField(f)
    ensures forall b | b in Block(fields) :: b < 0x80
    ensures Utf8(Block(fields))
  {
    if fields != [] {
      PlainLine(fields[0]);
      BlockIsUtf8(fields[1..]);
    }
    forall k | 0 <= k < |Block(fields)| ensures Block(fields)[k] < 0x80 {
      assert Block(fields)[k] in Block(fields);
    }
    AsciiIsUtf8(Block(fields), 0);
  }

  lemma IndexIs(s: seq<Byte>, b: Byte, i: nat)
    requires i < |s| && s[i] == b && b !in s[..i]
    ensures IndexOf(s, b) == Some(i)
  {
  }

  lemma {:induction false} LeftEdgeBehind(s: seq<Byte>, i: nat)
    requires i <= |s|
    ensures LeftEdge([SPACE] + s, i + 1) == LeftEdge(s, i) + 1
    decreases |s| - i
  {
    if i + 1 <= |s| && Space1(s[i]) {
      LeftEdgeBehind(s, i + 1);
    } else if i + 2 <= |s| && Space2(s[i], s[i + 1]) {
      LeftEdgeBehind(s, i + 2);
    } else if i + 3 <= |s| && Space3(s[i], s[i + 1], s[i + 2]) {
      LeftEdgeBehind(s, i + 3);
    }
  }

  lemma {:induction false} RightEdgeBehind(s: seq<Byte>, lo: nat, n: nat)
    requires lo <= n <= |s|
    ensures RightEdge([SPACE] + s, lo + 1, n + 1) == RightEdge(s, lo, n) + 1
  {
    if n >= lo + 1 && Space1(s[n - 1]) {
      RightEdgeBehind(s, lo, n - 1);
    } else if n >= lo + 2 && Space2(s[n - 2], s[n - 1]) {
      RightEdgeBehind(s, lo, n - 2);
    } else if n >= lo + 3 && Space3(s[n - 3], s[n - 2], s[n - 1]) {
      RightEdgeBehind(s, lo, n - 3);
    }
  }

  lemma TrimSkipsSpace(s: seq<Byte>)
    ensures Trim([SPACE] + s) == Trim(s)
  {
    LeftEdgeBehind(s, 0);
    assert LeftEdge([SPACE] + s, 0) == LeftEdge(s, 0) + 1;
    RightEdgeBehind(s, LeftEdge(s, 0), |s|);
    SliceBehind(SPACE, s, LeftEdge(s, 0), RightEdge(s, LeftEdge(s, 0), |s|));
  }

  lemma SliceBehind<T>(x: T, s: seq<T>, lo: nat, n: nat)
    requires lo <= n <= |s|
    ensures ([x] + s)[lo + 1..n + 1] == s[lo..n]
  {
    assert ([x] + s)[1..] == s;
    assert ([x] + s)[lo + 1..n + 1] == ([x] + s)[1..][lo..n];
  }

  lemma LineDeclares(f: Field)
    requires PlainField(f)
    ensures LengthOf(Line(f)) == FieldLength(f)
  {
    var line := Line(f);
    assert line[..|f.name|] == f.name;
    IndexIs(line, COLON, |f.name|);
    assert line[|f.name| + 1..] == [SPACE] + f.value;
    TrimSkipsSpace(f.value);
  }

  // Reading a protocol block finds the first length its fields declare.
  lemma {:induction false} BlockDeclares(fields: seq<Field>)
    requires forall f | f in fields :: PlainField(f)
    ensures Declared(Block(fields)) == FirstLength(fields)
  {
    if fields == [] {
      assert [CR, LF][..1] == [CR] && [CR, LF][2..] == [];
      IndexIs([CR, LF], LF, 1);
    } else {
      PlainLine(fields[0]);
      LineRead(Line(fields[0]), Block(fields[1..]));
      LineDeclares(fields[0]);
      BlockDeclares(fields[1..]);
    }
  }

  lemma LineRead(line: seq<Byte>, rest: seq<Byte>)
    requires LF !in line
    ensures Declared(line + [CR, LF] + rest) == if LengthOf(line).Some? then LengthOf(line) else Declared(rest)
  {
    var block := line + [CR, LF] + rest;
    assert block[..|line| + 1] == line + [CR] && block[|line| + 2..] == rest;
    IndexIs(block, LF, |line| + 1);
    assert Chomp(line + [CR]) == line;
  }

  // Decimal digits, most significant first.
  function Digits(n: nat): (s: seq<Byte>)
    ensures s != [] && forall k | 0 <= k < |s| :: Digit(s[k])
  {
    if n < 10 then [48 + n] else Digits(n / 10) + [48 + n % 10]
  }

  lemma {:induction false} ValueOfPrefix(s: seq<Byte>, more: seq<Byte>, lo: nat, n: nat)
    requires lo <= n <= |s|
    ensures Value(s + more, lo, n) == Value(s, lo, n)
  {
    if n > lo {
      ValueOfPrefix(s, more, lo, n - 1);
    }
  }

  lemma {:induction false} DigitsRoundTrip(n: nat)
    ensures Value(Digits(n), 0, |Digits(n)|) == n
  {
    if n >= 10 {
      DigitsRoundTrip(n / 10);
      ValueOfPrefix(Digits(n / 10), [48 + n % 10], 0, |Digits(n / 10)|);
    }
  }

  lemma DigitsParse(n: nat)
    requires n <= USIZE_MAX
    ensures ParseSize(Trim(Digits(n))) == Some(n)
  {
    DigitsRoundTrip(n);
    var s := Digits(n);
    assert LeftEdge(s, 0) == 0 && RightEdge(s, 0, |s|) == |s|;
    assert Trim(s) == s;
  }

  lemma {:induction false} ValueBehind(b: Byte, s: seq<Byte>, n: nat)
    requires n <= |s|
    ensures Value([b] + s, 1, n + 1) == Value(s, 0, n)
  {
    if n > 0 {
      ValueBehind(b, s, n - 1);
    }
  }

  // A length may carry a plus, and no other sign.
  lemma SignedLengths(n: nat)
    requires n <= USIZE_MAX
    ensures ParseSize([PLUS] + Digits(n)) == Some(n)
    ensures forall b: Byte | b != PLUS && !Digit(b) :: ParseSize([b] + Digits(n)) == None
  {
    DigitsRoundTrip(n);
    var s := [PLUS] + Digits(n);
    ValueBehind(PLUS, Digits(n), |Digits(n)|);
    assert forall k | 1 <= k < |s| :: s[k] == Digits(n)[k - 1];
  }

  predicate White(b: Byte) {
    b in {9, 10, 11, 12, 13, 32}
  }

  // White space before or after a length does not matter.
  lemma PaddedLengths(n: nat, before: Byte, after: Byte)
    requires n <= USIZE_MAX && White(before) && White(after)
    ensures ParseSize(Trim([before] + Digits(n) + [after])) == Some(n)
  {
    var s := [before] + Digits(n) + [after];
    assert s[1..|s| - 1] == Digits(n);
    DigitsRoundTrip(n);
    assert Digit(s[1]) && Digit(s[|s| - 2]);
    assert LeftEdge(s, 0) == LeftEdge(s, 1) == 1;
    assert RightEdge(s, 1, |s|) == RightEdge(s, 1, |s| - 1) == |s| - 1;
  }

  // The name of the field in any mixture of capitals and small letters.
  lemma {:induction false} NamesInAnyCase(s: seq<Byte>, i: nat)
    requires |s| == 14 && i <= 14
    requires forall k | i <= k < 14 :: s[k] == NameByte(k) || (k != 7 && s[k] == NameByte(k) - 32)
    ensures NameFrom(s, i) && (i == 0 ==> NamesLength(s))
    decreases 14 - i
  {
    if i < 14 {
      NamesInAnyCase(s, i + 1);
    }
  }

  // A sender following the protocol: other fields around one length in decimal,
  // its name in any case, give a well-formed frame.
  lemma ProtocolFramesAreWellFormed(before: seq<Field>, name: seq<Byte>, after: seq<Field>, body: seq<Byte>)
    requires forall f | f in before + after :: PlainField(f)
    requires forall f | f in before :: FieldLength(f).None?
    requires Plain(name) && NamesLength(name)
    requires Utf8(body) && |body| <= MAX_CONTENT_LENGTH
    ensures var fields := before + [Field(name, Digits(|body|))] + after;
            |Block(fields)| + |body| <= USIZE_MAX ==> Frame(Block(fields), body).WellFormed()
  {
    var length := Field(name, Digits(|body|));
    var fields := before + [length] + after;
    LengthNameIsPlain(name);
    forall f | f in fields ensures PlainField(f) {
      assert f in before || f == length || f in after;
      assert f in before || f in after ==> f in before + after;
    }
    BlockEnds(fields);
    BlockIsUtf8(fields);
    BlockDeclares(fields);
    LengthIsFirst(before, length, after, |body|);
  }

  lemma LengthIsFirst(before: seq<Field>, length: Field, after: seq<Field>, n: nat)
    requires forall f | f in before :: FieldLength(f).None?
    requires NamesLength(length.name) && length.value == Digits(n) && n <= USIZE_MAX
    ensures FirstLength(before + [length] + after) == Some(n)
  {
    DigitsParse(n);
    FirstLengthSkips(before, [length] + after);
    assert before + [length] + after == before + ([length] + after);
  }

  lemma LengthNameIsPlain(name: seq<Byte>)
    requires NamesLength(name)
    ensures COLON !in name
  {
    NameAt(name, 0);
  }

  lemma {:induction false} NameAt(s: seq<Byte>, i: nat)
    requires i <= |s| && NameFrom(s, i)
    ensures forall k | i <= k < |s| :: Lower(s[k]) == NameByte(k) && s[k] != COLON
    decreases |s| - i
  {
    if i < |s| {
      NameAt(s, i + 1);
    }
  }

  lemma OwnName(i: nat)
    requires i <= NAME_LENGTH
    ensures NameFrom(LengthName(), i)
    decreases NAME_LENGTH - i
  {
  }

  lemma {:induction false} FirstLengthSkips(before: seq<Field>, rest: seq<Field>)
    requires forall f | f in before :: FieldLength(f).None?
    ensures FirstLength(before + rest) == FirstLength(rest)
  {
    if before == [] {
      assert before + rest == rest;
    } else {
      assert (before + rest)[1..] == before[1..] + rest;
      FirstLengthSkips(before[1..], rest);
    }
  }
}
