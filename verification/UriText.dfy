/**
 Text as the program holds it, a sequence of 16-bit code units, and its percent
 encoding (section 2.1 of RFC 3986) over UTF-8 (section 3 of RFC 3629).
 */
module UriText {
  import opened Contracts

  type Unit = u: int | 0 <= u < 0x1_0000 witness 0
  type Text = seq<Unit>
  type Byte = b: int | 0 <= b < 0x100 witness 0

  const SLASH: Unit := 0x2F
  const PERCENT: Unit := 0x25

  predicate IsHigh(u: Unit) { 0xD800 <= u < 0xDC00 }
  predicate IsLow(u: Unit) { 0xDC00 <= u < 0xE000 }

  predicate IsScalar(v: int) {
    0 <= v < 0xD800 || 0xE000 <= v < 0x11_0000
  }

  /** Every surrogate is half of a pair. */
  predicate WellFormed(s: Text) {
    if |s| == 0 then true
    else if IsHigh(s[0]) then |s| >= 2 && IsLow(s[1]) && WellFormed(s[2..])
    else !IsLow(s[0]) && WellFormed(s[1..])
  }

  function Utf16(v: int): (units: Text)
    requires IsScalar(v)
    ensures 1 <= |units| <= 2
  {
    if v < 0x1_0000 then [v] else [0xD800 + (v - 0x1_0000) / 0x400, 0xDC00 + (v - 0x1_0000) % 0x400]
  }

  /** The scalar a text starts with. */
  function ScalarOf(s: Text): (v: int)
    requires |s| > 0 && !IsLow(s[0]) && (IsHigh(s[0]) ==> |s| >= 2 && IsLow(s[1]))
    ensures IsScalar(v) && |Utf16(v)| <= |s| && s[..|Utf16(v)|] == Utf16(v)
    ensures IsHigh(s[0]) <==> |Utf16(v)| == 2
  {
    if IsHigh(s[0]) then 0x1_0000 + (s[0] as int - 0xD800) * 0x400 + (s[1] as int - 0xDC00) else s[0]
  }

  function Utf8(v: int): (bytes: seq<Byte>)
    requires IsScalar(v)
    ensures 1 <= |bytes| <= 4
  {
    if v < 0x80 then [v]
    else if v < 0x800 then [0xC0 + v / 0x40, 0x80 + v % 0x40]
    else if v < 0x1_0000 then [0xE0 + v / 0x1000, 0x80 + v / 0x40 % 0x40, 0x80 + v % 0x40]
    else [0xF0 + v / 0x4_0000, 0x80 + v / 0x1000 % 0x40, 0x80 + v / 0x40 % 0x40, 0x80 + v % 0x40]
  }

  // ---------------------------------------------------------------- one escape

  predicate IsDigitUnit(u: Unit) { 0x30 <= u <= 0x39 }
  predicate IsLetterUnit(u: Unit) { 0x41 <= u <= 0x5A || 0x61 <= u <= 0x7A }

  function HexUnit(d: int): Unit
    requires 0 <= d < 16
  {
    if d < 10 then 0x30 + d else 0x37 + d
  }

  /** A hexadecimal digit in either case. */
  function HexValue(u: Unit): (d: int)
    ensures -1 <= d < 16
  {
    if IsDigitUnit(u) then u - 0x30
    else if 0x41 <= u <= 0x46 then u - 0x37
    else if 0x61 <= u <= 0x66 then u - 0x57
    else -1
  }

  function Escape(b: Byte): Text {
    [PERCENT, HexUnit(b / 16), HexUnit(b % 16)]
  }

  function Escapes(bytes: seq<Byte>): (s: Text)
    ensures |s| == 3 * |bytes|
  {
    if |bytes| == 0 then [] else Escape(bytes[0]) + Escapes(bytes[1..])
  }

  /** The byte an escape at the start of a text stands for. */
  function Unescape(s: Text): Option<Byte> {
    if |s| >= 3 && s[0] == PERCENT && HexValue(s[1]) >= 0 && HexValue(s[2]) >= 0
    then Some(HexValue(s[1]) * 16 + HexValue(s[2]))
    else None
  }

  lemma UnescapeEscape(b: Byte, rest: Text)
    ensures Unescape(Escape(b) + rest) == Some(b)
  {
  }

  // ---------------------------------------------------------------- encodeURIComponent

  predicate Unescaped(u: Unit) {
    IsDigitUnit(u) || IsLetterUnit(u) || u == 0x2D || u == 0x5F || u == 0x2E || u == 0x21 || u == 0x7E || u == 0x2A
      || u == 0x27 || u == 0x28 || u == 0x29
  }

  /** Encode a component. A surrogate without its other half cannot be encoded. */
  function Encode(s: Text): Option<Text> {
    if |s| == 0 then Some([])
    else if Unescaped(s[0]) then
      var rest := Encode(s[1..]);
      if rest.Some? then Some([s[0]] + rest.value) else None
    else if IsLow(s[0]) || (IsHigh(s[0]) && (|s| < 2 || !IsLow(s[1]))) then None
    else
      var v := ScalarOf(s);
      var rest := Encode(s[|Utf16(v)|..]);
      if rest.Some? then Some(Escapes(Utf8(v)) + rest.value) else None
  }

  // ---------------------------------------------------------------- decodeURIComponent

  /** How many bytes a lead byte announces; 0 for one that cannot lead. */
  function Announced(b: Byte): nat {
    if b < 0x80 then 1
    else if b < 0xC0 then 0
    else if b < 0xE0 then 2
    else if b < 0xF0 then 3
    else if b < 0xF8 then 4
    else 0
  }

  /** The next `n` escapes of a text as continuation bytes, folded into `v`. */
  function Continue(s: Text, n: nat, v: nat): Option<nat> {
    if n == 0 then Some(v)
    else
      var b := Unescape(s);
      if b.Some? && 0x80 <= b.value < 0xC0 then Continue(s[3..], n - 1, v * 0x40 + (b.value - 0x80)) else None
  }

  function LeadBits(b: Byte, n: nat): nat
    requires Announced(b) == n && n > 0
  {
    match n
    case 1 => b
    case 2 => b - 0xC0
    case 3 => b - 0xE0
    case _ => b - 0xF0
  }

  /** The least scalar that needs `n` bytes. */
  function LeastFor(n: nat): nat {
    match n
    case 1 => 0
    case 2 => 0x80
    case 3 => 0x800
    case _ => 0x1_0000
  }

  /**
   The scalar that the escapes at the start of a text spell: not over-long, not a
   surrogate, not past the last one.
   */
  function EscapedScalar(s: Text): (r: Option<(nat, nat)>)
    ensures r.Some? ==> IsScalar(r.value.0) && 1 <= r.value.1 && 3 * r.value.1 <= |s|
  {
    var lead := Unescape(s);
    if lead.None? then None
    else
      var n := Announced(lead.value);
      if n == 0 || 3 * n > |s| then None
      else
        var v := Continue(s[3..], n - 1, LeadBits(lead.value, n));
        if v.Some? && IsScalar(v.value) && LeastFor(n) <= v.value then Some((v.value, n)) else None
  }

  /** Decode a component; a malformed escape is an error. */
  function Decode(s: Text): Option<Text>
    decreases |s|
  {
    if |s| == 0 then Some([])
    else if s[0] != PERCENT then
      var rest := Decode(s[1..]);
      if rest.Some? then Some([s[0]] + rest.value) else None
    else
      var escaped := EscapedScalar(s);
      if escaped.None? then None
      else
        var rest := Decode(s[3 * escaped.value.1..]);
        if rest.Some? then Some(Utf16(escaped.value.0) + rest.value) else None
  }

  // ---------------------------------------------------------------- decoding undoes encoding

  predicate Continues(bytes: seq<Byte>) {
    forall i :: 0 <= i < |bytes| ==> 0x80 <= bytes[i] < 0xC0
  }

  function Folded(bytes: seq<Byte>, v: nat): nat
    requires Continues(bytes)
  {
    if |bytes| == 0 then v else Folded(bytes[1..], v * 0x40 + (bytes[0] - 0x80))
  }

  lemma {:induction false} ContinueEscapes(bytes: seq<Byte>, v: nat, rest: Text)
    requires Continues(bytes)
    ensures Continue(Escapes(bytes) + rest, |bytes|, v) == Some(Folded(bytes, v))
  {
    if |bytes| > 0 {
      var s := Escapes(bytes) + rest;
      assert s == Escape(bytes[0]) + (Escapes(bytes[1..]) + rest);
      UnescapeEscape(bytes[0], Escapes(bytes[1..]) + rest);
      assert s[3..] == Escapes(bytes[1..]) + rest;
      ContinueEscapes(bytes[1..], v * 0x40 + (bytes[0] - 0x80), rest);
    }
  }

  lemma SixBits(v: nat)
    ensures v == v / 0x40 * 0x40 + v % 0x40
    ensures v / 0x1000 == v / 0x40 / 0x40 && v / 0x4_0000 == v / 0x1000 / 0x40
  {
  }

  lemma FoldsTwo(a: Byte, v: nat)
    requires Continues([a])
    ensures Folded([a], v) == v * 0x40 + (a - 0x80)
  {
    assert [a][1..] == [];
  }

  lemma FoldsThree(a: Byte, b: Byte, v: nat)
    requires Continues([a, b])
    ensures Folded([a, b], v) == (v * 0x40 + (a - 0x80)) * 0x40 + (b - 0x80)
  {
    assert Continues([b]) by { assert [a, b][1] == b; }
    assert [a, b][1..] == [b];
    FoldsTwo(b, v * 0x40 + ([a, b][0] - 0x80));
  }

  lemma FoldsFour(a: Byte, b: Byte, c: Byte, v: nat)
    requires Continues([a, b, c])
    ensures Folded([a, b, c], v) == ((v * 0x40 + (a - 0x80)) * 0x40 + (b - 0x80)) * 0x40 + (c - 0x80)
  {
    assert Continues([b, c]) by { assert [a, b, c][1] == b && [a, b, c][2] == c; }
    assert [a, b, c][1..] == [b, c];
    FoldsThree(b, c, v * 0x40 + ([a, b, c][0] - 0x80));
  }

  /** UTF-8 as a lead byte and its continuation bytes, and the scalar they fold back to. */
  lemma Utf8Folds(v: int)
    requires IsScalar(v)
    ensures var bytes := Utf8(v);
            && Announced(bytes[0]) == |bytes| && LeastFor(|bytes|) <= v && Continues(bytes[1..])
            && Folded(bytes[1..], LeadBits(bytes[0], |bytes|)) == v
  {
    var bytes := Utf8(v);
    SixBits(v);
    SixBits(v / 0x40);
    if v < 0x80 {
      assert bytes[1..] == [];
    } else if v < 0x800 {
      assert bytes[1..] == [bytes[1]];
      FoldsTwo(bytes[1], v / 0x40);
    } else if v < 0x1_0000 {
      assert bytes[1..] == [bytes[1], bytes[2]];
      FoldsThree(bytes[1], bytes[2], v / 0x1000);
    } else {
      Utf8FoldsFour(v);
    }
  }

  lemma Utf8FoldsFour(v: int)
    requires IsScalar(v) && v >= 0x1_0000
    ensures var bytes := Utf8(v);
            && Announced(bytes[0]) == |bytes| == 4 && Continues(bytes[1..])
            && Folded(bytes[1..], LeadBits(bytes[0], 4)) == v
  {
    var bytes := Utf8(v);
    assert bytes[1..] == [bytes[1], bytes[2], bytes[3]];
    SixBits(v);
    SixBits(v / 0x40);
    SixBits(v / 0x1000);
    FoldsFour(bytes[1], bytes[2], bytes[3], v / 0x4_0000);
  }

  lemma EscapedScalarOfUtf8(v: int, rest: Text)
    requires IsScalar(v)
    ensures EscapedScalar(Escapes(Utf8(v)) + rest) == Some((v, |Utf8(v)|))
  {
    var bytes := Utf8(v);
    var s := Escapes(bytes) + rest;
    assert s == Escape(bytes[0]) + (Escapes(bytes[1..]) + rest);
    UnescapeEscape(bytes[0], Escapes(bytes[1..]) + rest);
    assert s[3..] == Escapes(bytes[1..]) + rest;
    Utf8Folds(v);
    ContinueEscapes(bytes[1..], LeadBits(bytes[0], |bytes|), rest);
  }

  lemma DecodePlain(u: Unit, rest: Text)
    requires u != PERCENT && Decode(rest).Some?
    ensures Decode([u] + rest) == Some([u] + Decode(rest).value)
  {
    assert ([u] + rest)[1..] == rest;
  }

  lemma DecodeEscaped(v: int, rest: Text)
    requires IsScalar(v) && Decode(rest).Some?
    ensures Decode(Escapes(Utf8(v)) + rest) == Some(Utf16(v) + Decode(rest).value)
  {
    var s := Escapes(Utf8(v)) + rest;
    EscapedScalarOfUtf8(v, rest);
    assert s[0] == PERCENT;
    assert s[3 * |Utf8(v)|..] == rest;
  }

  lemma EncodeEscaped(s: Text)
    requires Encode(s).Some? && |s| > 0 && !Unescaped(s[0])
    ensures !IsLow(s[0]) && (IsHigh(s[0]) ==> |s| >= 2 && IsLow(s[1]))
    ensures var v := ScalarOf(s); var rest := s[|Utf16(v)|..];
            Encode(rest).Some? && Encode(s).value == Escapes(Utf8(v)) + Encode(rest).value && s == Utf16(v) + rest
  {
    var v := ScalarOf(s);
    assert s == s[..|Utf16(v)|] + s[|Utf16(v)|..];
  }

  /** Decoding undoes encoding. */
  lemma {:induction false} DecodeEncode(s: Text)
    requires Encode(s).Some?
    ensures Decode(Encode(s).value) == Some(s)
    decreases |s|, 1
  {
    if |s| == 0 {
    } else if Unescaped(s[0]) {
      DecodeEncode(s[1..]);
      DecodePlain(s[0], Encode(s[1..]).value);
      assert s == [s[0]] + s[1..];
    } else {
      DecodeEncodeEscaped(s);
    }
  }

  lemma {:induction false} DecodeEncodeEscaped(s: Text)
    requires Encode(s).Some? && |s| > 0 && !Unescaped(s[0])
    ensures Decode(Encode(s).value) == Some(s)
    decreases |s|, 0
  {
    EncodeEscaped(s);
    var v := ScalarOf(s);
    var rest := s[|Utf16(v)|..];
    DecodeEncode(rest);
    DecodeEscaped(v, Encode(rest).value);
  }

  /** A text can be encoded exactly when its surrogates pair up. */
  lemma {:induction false} EncodesExactlyWellFormed(s: Text)
    ensures Encode(s).Some? <==> WellFormed(s)
    decreases |s|
  {
    if |s| > 0 {
      if IsHigh(s[0]) {
        if |s| >= 2 { EncodesExactlyWellFormed(s[2..]); }
      } else {
        EncodesExactlyWellFormed(s[1..]);
      }
    }
  }

  // ---------------------------------------------------------------- what encoding leaves in a text

  /** The units an encoded component is made of. */
  predicate Coded(s: Text) {
    forall i :: 0 <= i < |s| ==> Unescaped(s[i]) || s[i] == PERCENT
  }

  lemma {:induction false} EscapesCoded(bytes: seq<Byte>)
    ensures Coded(Escapes(bytes))
  {
    if |bytes| > 0 { EscapesCoded(bytes[1..]); }
  }

  /** An encoded component holds no slash, and is empty only for the empty text. */
  lemma {:induction false} EncodeCoded(s: Text)
    requires Encode(s).Some?
    ensures Coded(Encode(s).value) && (Encode(s).value == [] <==> s == [])
    decreases |s|
  {
    if |s| > 0 {
      if Unescaped(s[0]) {
        EncodeCoded(s[1..]);
      } else {
        var v := ScalarOf(s);
        EncodeCoded(s[|Utf16(v)|..]);
        EscapesCoded(Utf8(v));
      }
    }
  }

  // ---------------------------------------------------------------- what decoding leaves in a text

  lemma Utf16WellFormed(v: int, rest: Text)
    requires IsScalar(v)
    ensures WellFormed(Utf16(v) + rest) <==> WellFormed(rest)
  {
    var s := Utf16(v) + rest;
    assert s[|Utf16(v)|..] == rest;
  }

  predicate AsciiOnly(s: Text) {
    forall i :: 0 <= i < |s| ==> s[i] < 0x80
  }

  lemma {:induction false} AsciiPrefix(s: Text, n: nat)
    requires n <= |s| && AsciiOnly(s[..n])
    ensures WellFormed(s) <==> WellFormed(s[n..])
  {
    if n > 0 {
      assert s[0] == s[..n][0];
      assert s[1..][..n - 1] == s[..n][1..];
      AsciiPrefix(s[1..], n - 1);
      assert s[1..][n - 1..] == s[n..];
    }
  }

  lemma {:induction false} ContinueAscii(s: Text, n: nat, v: nat)
    requires Continue(s, n, v).Some?
    ensures 3 * n <= |s| && AsciiOnly(s[..3 * n])
  {
    if n > 0 {
      ContinueAscii(s[3..], n - 1, v * 0x40 + (Unescape(s).value - 0x80));
      assert s[..3 * n] == s[..3] + s[3..][..3 * (n - 1)];
    }
  }

  lemma EscapesAreWellFormed(s: Text)
    requires EscapedScalar(s).Some?
    ensures WellFormed(s) <==> WellFormed(s[3 * EscapedScalar(s).value.1..])
  {
    var n := EscapedScalar(s).value.1;
    var lead := Unescape(s).value;
    ContinueAscii(s[3..], n - 1, LeadBits(lead, n));
    assert s[..3 * n] == s[..3] + s[3..][..3 * (n - 1)];
    AsciiPrefix(s, 3 * n);
  }

  /** Decoding neither makes nor mends a lone surrogate, and empties nothing. */
  lemma {:induction false} DecodeWellFormed(s: Text)
    requires Decode(s).Some?
    ensures WellFormed(Decode(s).value) <==> WellFormed(s)
    ensures Decode(s).value == [] <==> s == []
    decreases |s|
  {
    if |s| > 0 {
      if s[0] == PERCENT {
        var escaped := EscapedScalar(s).value;
        DecodeWellFormed(s[3 * escaped.1..]);
        Utf16WellFormed(escaped.0, Decode(s[3 * escaped.1..]).value);
        EscapesAreWellFormed(s);
      } else {
        DecodeWellFormed(s[1..]);
        assert Decode(s).value[1..] == Decode(s[1..]).value;
        if IsHigh(s[0]) { DecodeAfterHigh(s); }
      }
    }
  }

  /** Past a high surrogate the next unit decides, and no escape starts with a low one. */
  lemma {:induction false} DecodeAfterHigh(s: Text)
    requires |s| > 0 && IsHigh(s[0]) && Decode(s).Some?
    ensures WellFormed(Decode(s).value) <==> WellFormed(s)
    decreases |s|, 0
  {
    var decoded := Decode(s).value;
    assert decoded[1..] == Decode(s[1..]).value;
    if |s| >= 2 && IsLow(s[1]) {
      DecodeWellFormed(s[2..]);
      assert s[1..][1..] == s[2..];
      assert decoded[2..] == Decode(s[2..]).value;
    } else if |s| >= 2 && s[1] == PERCENT {
      var escaped := EscapedScalar(s[1..]).value;
      assert decoded[1] == Utf16(escaped.0)[0];
    }
  }
}
