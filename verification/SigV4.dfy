/**
 The canonical path and query a request is signed over: percent-encoded pieces,
 sorted and joined (sections 2.1 and 2.3 of RFC 3986).

 The encoder takes a text one code unit at a time. Half of a surrogate pair is no
 character, and the platform's UTF-8 encoder writes U+FFFD for it, so the encoder
 tells two texts apart only up to that replacement.
 */
module SigV4 {
  import opened Contracts
  import opened UriText

  const AMPERSAND: Unit := 0x26
  const EQUALS: Unit := 0x3D
  const REPLACEMENT := 0xFFFD

  // ---------------------------------------------------------------- encoding

  predicate Unreserved(u: Unit) {
    IsDigitUnit(u) || IsLetterUnit(u) || u == 0x2D || u == 0x2E || u == 0x5F || u == 0x7E
  }

  predicate IsSurrogate(u: Unit) {
    IsHigh(u) || IsLow(u)
  }

  /** What the UTF-8 encoder makes of one code unit by itself. */
  function Replaced(u: Unit): (v: Unit)
    ensures IsScalar(v)
  {
    if IsSurrogate(u) then REPLACEMENT else u
  }

  function EncodeUnit(u: Unit, encodeSlash: bool): Text {
    if Unreserved(u) || (u == SLASH && !encodeSlash) then [u] else Escapes(Utf8(Replaced(u)))
  }

  function UriEncode(s: Text, encodeSlash: bool): Text {
    if |s| == 0 then [] else EncodeUnit(s[0], encodeSlash) + UriEncode(s[1..], encodeSlash)
  }

  /** A text with every surrogate replaced. */
  function AllReplaced(s: Text): (r: Text)
    ensures |r| == |s|
  {
    seq(|s|, i requires 0 <= i < |s| => Replaced(s[i]))
  }

  predicate SurrogateFree(s: Text) {
    forall i :: 0 <= i < |s| ==> !IsSurrogate(s[i])
  }

  lemma DecodeUnit(u: Unit, encodeSlash: bool, rest: Text, decoded: Text)
    requires Decode(rest) == Some(decoded)
    ensures Decode(EncodeUnit(u, encodeSlash) + rest) == Some([Replaced(u)] + decoded)
  {
    if Unreserved(u) || (u == SLASH && !encodeSlash) {
      DecodePlain(u, rest);
    } else {
      DecodeEscaped(Replaced(u), rest);
    }
  }

  lemma ReplacedFirst(s: Text)
    requires |s| > 0
    ensures AllReplaced(s) == [Replaced(s[0])] + AllReplaced(s[1..])
  {
  }

  /** Decoding what was encoded gives the text back, surrogates replaced. */
  lemma {:induction false} DecodeUriEncode(s: Text, encodeSlash: bool)
    ensures Decode(UriEncode(s, encodeSlash)) == Some(AllReplaced(s))
  {
    if |s| > 0 {
      DecodeUriEncode(s[1..], encodeSlash);
      DecodeUnit(s[0], encodeSlash, UriEncode(s[1..], encodeSlash), AllReplaced(s[1..]));
      ReplacedFirst(s);
    }
  }

  lemma ReplacedExactly(s: Text)
    ensures AllReplaced(s) == s <==> SurrogateFree(s)
  {
    if !SurrogateFree(s) {
      var i :| 0 <= i < |s| && IsSurrogate(s[i]);
      assert AllReplaced(s)[i] != s[i];
    } else {
      assert AllReplaced(s) == s;
    }
  }

  lemma {:induction false} EncodeReplaced(s: Text, encodeSlash: bool)
    ensures UriEncode(AllReplaced(s), encodeSlash) == UriEncode(s, encodeSlash)
  {
    if |s| > 0 {
      EncodeReplaced(s[1..], encodeSlash);
      assert AllReplaced(s)[1..] == AllReplaced(s[1..]);
    }
  }

  /** Two texts encode alike exactly when they are the same up to their surrogates. */
  lemma EncodesAlikeExactly(s: Text, t: Text, encodeSlash: bool)
    ensures UriEncode(s, encodeSlash) == UriEncode(t, encodeSlash) <==> AllReplaced(s) == AllReplaced(t)
  {
    DecodeUriEncode(s, encodeSlash);
    DecodeUriEncode(t, encodeSlash);
    EncodeReplaced(s, encodeSlash);
    EncodeReplaced(t, encodeSlash);
  }

  /** Two different characters outside the basic plane are signed as one. */
  lemma DifferentCharactersEncodeAlike()
    ensures var s: Text, t: Text := [0xD83D, 0xDE00], [0xD83D, 0xDE01];
            WellFormed(s) && WellFormed(t) && s != t && UriEncode(s, true) == UriEncode(t, true)
  {
    var s: Text, t: Text := [0xD83D, 0xDE00], [0xD83D, 0xDE01];
    assert s[1] != t[1];
    assert AllReplaced(s) == AllReplaced(t);
    EncodesAlikeExactly(s, t, true);
    assert s[2..] == [] && t[2..] == [];
  }

  // ---------------------------------------------------------------- what an encoding looks like

  /** The characters that need no escape (section 2.3 of RFC 3986): letters, digits, `-`, `.`, `_` and `~`. */
  predicate NeedsNoEscape(u: int) {
    0x30 <= u <= 0x39 || 0x41 <= u <= 0x5A || 0x61 <= u <= 0x7A || u in {0x2D, 0x2E, 0x5F, 0x7E}
  }

  predicate IsUpperHex(u: Unit) {
    0x30 <= u <= 0x39 || 0x41 <= u <= 0x46
  }

  /**
   The normal form of an encoding: characters that need no escape, slashes where they
   are kept, and escapes in upper case, none of them of a character that needs none or
   of a slash that is kept.
   */
  predicate Normal(s: Text, slashes: bool) {
    if |s| == 0 then true
    else if NeedsNoEscape(s[0]) || (slashes && s[0] == SLASH) then Normal(s[1..], slashes)
    else
      && |s| >= 3 && s[0] == PERCENT && IsUpperHex(s[1]) && IsUpperHex(s[2])
      && !NeedsNoEscape(HexValue(s[1]) * 16 + HexValue(s[2]))
      && !(slashes && HexValue(s[1]) * 16 + HexValue(s[2]) == SLASH)
      && Normal(s[3..], slashes)
  }

  /** The text's normal encoding: it is in normal form, and decodes to the text, surrogates replaced. */
  predicate NormallyEncodes(raw: Text, encoded: Text, slashes: bool) {
    Normal(encoded, slashes) && Decode(encoded) == Some(AllReplaced(raw))
  }

  lemma EscapeNormal(b: Byte, rest: Text, slashes: bool)
    requires !NeedsNoEscape(b) && !(slashes && b == SLASH) && Normal(rest, slashes)
    ensures Normal(Escape(b) + rest, slashes)
  {
    var all := Escape(b) + rest;
    assert all[3..] == rest;
    assert HexValue(all[1]) == b / 16 && HexValue(all[2]) == b % 16;
  }

  lemma {:induction false} EscapesNormal(bytes: seq<Byte>, rest: Text, slashes: bool)
    requires forall i :: 0 <= i < |bytes| ==> !NeedsNoEscape(bytes[i]) && !(slashes && bytes[i] == SLASH)
    requires Normal(rest, slashes)
    ensures Normal(Escapes(bytes) + rest, slashes)
  {
    if |bytes| > 0 {
      EscapesNormal(bytes[1..], rest, slashes);
      EscapeNormal(bytes[0], Escapes(bytes[1..]) + rest, slashes);
      assert Escapes(bytes) + rest == Escape(bytes[0]) + (Escapes(bytes[1..]) + rest);
    } else {
      assert Escapes(bytes) + rest == rest;
    }
  }

  lemma Utf8Escapable(v: int, slashes: bool)
    requires IsScalar(v) && !NeedsNoEscape(v) && !(slashes && v == SLASH)
    ensures forall i :: 0 <= i < |Utf8(v)| ==> !NeedsNoEscape(Utf8(v)[i]) && !(slashes && Utf8(v)[i] == SLASH)
  {
  }

  /** Every text is encoded normally. */
  lemma {:induction false} EncodesNormally(s: Text, encodeSlash: bool)
    ensures NormallyEncodes(s, UriEncode(s, encodeSlash), !encodeSlash)
  {
    DecodeUriEncode(s, encodeSlash);
    if |s| > 0 {
      EncodesNormally(s[1..], encodeSlash);
      var rest := UriEncode(s[1..], encodeSlash);
      if Unreserved(s[0]) || (s[0] == SLASH && !encodeSlash) {
        assert (EncodeUnit(s[0], encodeSlash) + rest)[1..] == rest;
      } else {
        Utf8Escapable(Replaced(s[0]), !encodeSlash);
        EscapesNormal(Utf8(Replaced(s[0])), rest, !encodeSlash);
      }
    }
  }

  /** A text of characters that need no escape, and slashes where they are kept, is its own encoding. */
  lemma {:induction false} PlainStandsForItself(s: Text, encodeSlash: bool)
    requires forall i :: 0 <= i < |s| ==> NeedsNoEscape(s[i]) || (!encodeSlash && s[i] == SLASH)
    ensures UriEncode(s, encodeSlash) == s && Decode(s) == Some(s)
  {
    if |s| > 0 {
      PlainStandsForItself(s[1..], encodeSlash);
      DecodePlain(s[0], s[1..]);
      assert s == [s[0]] + s[1..];
    }
  }

  /** The pieces of a text between the places where `u` stands. */
  function SplitAt(s: Text, u: Unit): (pieces: seq<Text>)
    ensures |pieces| >= 1
  {
    if |s| == 0 then [[]]
    else
      var rest := SplitAt(s[1..], u);
      if s[0] == u then [[]] + rest else [[s[0]] + rest[0]] + rest[1..]
  }

  lemma {:induction false} SplitAfterFree(a: Text, x: Text, u: Unit)
    requires Free(a, u)
    ensures SplitAt(a + x, u) == [a + SplitAt(x, u)[0]] + SplitAt(x, u)[1..]
  {
    if |a| == 0 {
      assert a + x == x && a + SplitAt(x, u)[0] == SplitAt(x, u)[0];
    } else {
      SplitAfterFree(a[1..], x, u);
      assert (a + x)[1..] == a[1..] + x;
      assert [a[0]] + (a[1..] + SplitAt(x, u)[0]) == a + SplitAt(x, u)[0];
    }
  }

  /** The pieces are those of the one text, each encoded by itself. */
  predicate PiecesEncoded(raw: seq<Text>, encoded: seq<Text>) {
    |raw| == |encoded| && forall i :: 0 <= i < |raw| ==> NormallyEncodes(raw[i], encoded[i], false)
  }

  lemma {:induction false} EscapesFreeOf(bytes: seq<Byte>, u: Unit)
    requires u != PERCENT && !IsUpperHex(u)
    ensures Free(Escapes(bytes), u)
  {
    if |bytes| > 0 { EscapesFreeOf(bytes[1..], u); }
  }

  /** A unit that is no slash is encoded within its piece. */
  lemma UnitStaysInPiece(u: Unit, rest: Text)
    requires u != SLASH
    ensures EncodeUnit(u, false) == EncodeUnit(u, true)
    ensures SplitAt(EncodeUnit(u, false) + rest, SLASH)
         == [EncodeUnit(u, true) + SplitAt(rest, SLASH)[0]] + SplitAt(rest, SLASH)[1..]
  {
    EscapesFreeOf(Utf8(Replaced(u)), SLASH);
    SplitAfterFree(EncodeUnit(u, false), rest, SLASH);
  }

  /** Each piece encoded by itself. */
  predicate EachEncoded(pieces: seq<Text>, encoded: seq<Text>) {
    |pieces| == |encoded| && forall i :: 0 <= i < |pieces| ==> encoded[i] == UriEncode(pieces[i], true)
  }

  lemma EmptyPieceFirst(pieces: seq<Text>, encoded: seq<Text>)
    requires EachEncoded(pieces, encoded)
    ensures EachEncoded([[]] + pieces, [[]] + encoded)
  {
  }

  lemma FirstPieceGrows(u: Unit, pieces: seq<Text>, encoded: seq<Text>)
    requires EachEncoded(pieces, encoded) && |pieces| > 0
    ensures EachEncoded([[u] + pieces[0]] + pieces[1..], [EncodeUnit(u, true) + encoded[0]] + encoded[1..])
  {
    assert ([u] + pieces[0])[1..] == pieces[0];
  }

  /** Encoding piece by piece, the slashes between the pieces kept. */
  lemma {:induction false} EncodesPieces(s: Text)
    ensures EachEncoded(SplitAt(s, SLASH), SplitAt(UriEncode(s, false), SLASH))
  {
    if |s| > 0 {
      EncodesPieces(s[1..]);
      var rest := UriEncode(s[1..], false);
      if s[0] == SLASH {
        assert ([SLASH] + rest)[1..] == rest;
        EmptyPieceFirst(SplitAt(s[1..], SLASH), SplitAt(rest, SLASH));
      } else {
        UnitStaysInPiece(s[0], rest);
        FirstPieceGrows(s[0], SplitAt(s[1..], SLASH), SplitAt(rest, SLASH));
      }
    }
  }

  // ---------------------------------------------------------------- the canonical path

  /** The encoded path; a malformed escape is an error. */
  function CanonicalPath(pathname: Text): Option<Text> {
    var decoded := Decode(pathname);
    if decoded.None? then None
    else
      var path := UriEncode(decoded.value, false);
      Some(if path == [] then [SLASH] else path)
  }

  /** The signed path names what the request names, exactly when what it names has no surrogates in it. */
  lemma CanonicalPathKeepsTheResource(pathname: Text)
    requires pathname != [] && CanonicalPath(pathname).Some?
    ensures Decode(CanonicalPath(pathname).value) == Decode(pathname) <==> SurrogateFree(Decode(pathname).value)
  {
    var decoded := Decode(pathname).value;
    DecodeWellFormed(pathname);
    DecodeUriEncode(decoded, false);
    ReplacedExactly(decoded);
  }

  /** Canonicalising twice is canonicalising once. */
  lemma CanonicalPathTwice(pathname: Text)
    requires pathname != [] && CanonicalPath(pathname).Some?
    ensures CanonicalPath(CanonicalPath(pathname).value) == CanonicalPath(pathname)
  {
    var decoded := Decode(pathname).value;
    DecodeWellFormed(pathname);
    DecodeUriEncode(decoded, false);
    EncodeReplaced(decoded, false);
  }

  /**
   The canonical path has the decoded path's slashes, and between them each of its
   segments in normal encoding.
   */
  lemma CanonicalPathKeepsSegments(pathname: Text)
    requires CanonicalPath(pathname).Some?
    ensures var decoded, canonical := Decode(pathname).value, CanonicalPath(pathname).value;
            if decoded == [] then canonical == [SLASH]
            else PiecesEncoded(SplitAt(decoded, SLASH), SplitAt(canonical, SLASH))
  {
    var decoded := Decode(pathname).value;
    EncodesPieces(decoded);
    EncodesNormally(decoded, false);
    if decoded != [] {
      EncodedIsNotEmpty(decoded, false);
      forall i | 0 <= i < |SplitAt(decoded, SLASH)|
        ensures NormallyEncodes(SplitAt(decoded, SLASH)[i], SplitAt(CanonicalPath(pathname).value, SLASH)[i], false)
      {
        EncodesNormally(SplitAt(decoded, SLASH)[i], true);
      }
    }
  }

  lemma EncodedIsNotEmpty(s: Text, encodeSlash: bool)
    requires s != []
    ensures UriEncode(s, encodeSlash) != []
  {
    assert |EncodeUnit(s[0], encodeSlash)| > 0;
  }

  /** A path of slashes and characters that need no escape is its own canonical path. */
  lemma PlainPathIsCanonical(pathname: Text)
    requires pathname != [] && forall i :: 0 <= i < |pathname| ==> NeedsNoEscape(pathname[i]) || pathname[i] == SLASH
    ensures CanonicalPath(pathname) == Some(pathname)
  {
    PlainStandsForItself(pathname, false);
  }

  // ---------------------------------------------------------------- order

  type Pair = (Text, Text)

  /** Code-unit order on texts. */
  predicate Below(a: Text, b: Text) {
    if |b| == 0 then false
    else if |a| == 0 then true
    else if a[0] != b[0] then a[0] < b[0]
    else Below(a[1..], b[1..])
  }

  /** The comparator: by key, then by value. */
  predicate PairBelow(a: Pair, b: Pair) {
    if a.0 == b.0 then Below(a.1, b.1) else Below(a.0, b.0)
  }

  predicate AtMost(a: Pair, b: Pair) {
    !PairBelow(b, a)
  }

  lemma {:induction false} BelowIsTotal(a: Text, b: Text)
    ensures Below(a, b) || Below(b, a) || a == b
    ensures !(Below(a, b) && Below(b, a)) && (a == b ==> !Below(a, b))
  {
    if |a| > 0 && |b| > 0 && a[0] == b[0] {
      BelowIsTotal(a[1..], b[1..]);
      assert a == [a[0]] + a[1..] && b == [b[0]] + b[1..];
    }
  }

  lemma {:induction false} BelowIsTransitive(a: Text, b: Text, c: Text)
    requires Below(a, b) && Below(b, c)
    ensures Below(a, c)
  {
    if |a| > 0 && a[0] == b[0] && b[0] == c[0] { BelowIsTransitive(a[1..], b[1..], c[1..]); }
  }

  lemma AtMostIsTotal(a: Pair, b: Pair)
    ensures AtMost(a, b) || AtMost(b, a)
    ensures AtMost(a, b) && AtMost(b, a) ==> a == b
  {
    BelowIsTotal(a.0, b.0);
    BelowIsTotal(a.1, b.1);
  }

  lemma AtMostIsTransitive(a: Pair, b: Pair, c: Pair)
    requires AtMost(a, b) && AtMost(b, c)
    ensures AtMost(a, c)
  {
    BelowIsTotal(a.0, b.0);
    BelowIsTotal(b.0, c.0);
    BelowIsTotal(a.0, c.0);
    BelowIsTotal(a.1, b.1);
    BelowIsTotal(b.1, c.1);
    BelowIsTotal(a.1, c.1);
    if PairBelow(c, a) {
      if a.0 == c.0 && a.0 == b.0 {
        if a.1 != b.1 && b.1 != c.1 { BelowIsTransitive(a.1, b.1, c.1); }
      } else if a.0 != b.0 && b.0 != c.0 {
        BelowIsTransitive(a.0, b.0, c.0);
      }
    }
  }

  // ---------------------------------------------------------------- the order of the names and of their encodings

  lemma {:induction false} BelowAfter(common: Text, a: Text, b: Text)
    ensures Below(common + a, common + b) <==> Below(a, b)
  {
    if |common| == 0 {
      assert common + a == a && common + b == b;
    } else {
      assert (common + a)[1..] == common[1..] + a && (common + b)[1..] == common[1..] + b;
      BelowAfter(common[1..], a, b);
    }
  }

  /** Texts of one length, different, decide the order of anything they start. */
  lemma {:induction false} BelowBy(a: Text, b: Text, x: Text, y: Text)
    requires |a| == |b| && a != b
    ensures Below(a + x, b + y) <==> Below(a, b)
    decreases |a|
  {
    if |a| > 0 && a[0] == b[0] {
      assert a == [a[0]] + a[1..] && b == [b[0]] + b[1..];
      assert (a + x)[1..] == a[1..] + x && (b + y)[1..] == b[1..] + y;
      BelowBy(a[1..], b[1..], x, y);
    }
  }

  lemma EscapeOrders(a: Byte, b: Byte, x: Text, y: Text)
    requires a < b
    ensures Below(Escape(a) + x, Escape(b) + y)
  {
    var s, t := Escape(a), Escape(b);
    assert s[1..] == [s[1], s[2]] && t[1..] == [t[1], t[2]];
    assert s[1..][1..] == [s[2]] && t[1..][1..] == [t[2]];
    if s[1] == t[1] { assert s[2] < t[2]; } else { assert s[1] < t[1]; }
    assert Below(s, t) && s != t;
    BelowBy(s, t, x, y);
  }

  /** The order of two byte strings at their first byte, and past a byte they share. */
  lemma EscapesOrderFirst(p: seq<Byte>, q: seq<Byte>, x: Text, y: Text)
    requires |p| > 0 && |q| > 0 && p[0] < q[0]
    ensures Below(Escapes(p) + x, Escapes(q) + y)
  {
    EscapeOrders(p[0], q[0], Escapes(p[1..]) + x, Escapes(q[1..]) + y);
    assert Escapes(p) + x == Escape(p[0]) + (Escapes(p[1..]) + x);
    assert Escapes(q) + y == Escape(q[0]) + (Escapes(q[1..]) + y);
  }

  lemma EscapesOrderNext(p: seq<Byte>, q: seq<Byte>, x: Text, y: Text)
    requires |p| > 0 && |q| > 0 && p[0] == q[0] && Below(Escapes(p[1..]) + x, Escapes(q[1..]) + y)
    ensures Below(Escapes(p) + x, Escapes(q) + y)
  {
    BelowAfter(Escape(p[0]), Escapes(p[1..]) + x, Escapes(q[1..]) + y);
    assert Escapes(p) + x == Escape(p[0]) + (Escapes(p[1..]) + x);
    assert Escapes(q) + y == Escape(q[0]) + (Escapes(q[1..]) + y);
  }

  /** UTF-8 keeps the order of characters. */
  lemma Utf8Orders(u: Unit, v: Unit, x: Text, y: Text)
    requires IsScalar(u) && IsScalar(v) && u < v
    ensures Below(Escapes(Utf8(u)) + x, Escapes(Utf8(v)) + y)
  {
    var p, q := Utf8(u), Utf8(v);
    if p[0] < q[0] {
      EscapesOrderFirst(p, q, x, y);
    } else if u < 0x800 {
      assert p[1..][0] < q[1..][0];
      EscapesOrderFirst(p[1..], q[1..], x, y);
      EscapesOrderNext(p, q, x, y);
    } else {
      Utf8OrdersThree(u, v, x, y);
    }
  }

  lemma Utf8OrdersThree(u: Unit, v: Unit, x: Text, y: Text)
    requires IsScalar(u) && IsScalar(v) && 0x800 <= u < v && u / 0x1000 == v / 0x1000
    ensures Below(Escapes(Utf8(u)) + x, Escapes(Utf8(v)) + y)
  {
    var p, q := Utf8(u), Utf8(v);
    SixBits(u);
    SixBits(v);
    SixBits(u / 0x40);
    SixBits(v / 0x40);
    if p[1] < q[1] {
      EscapesOrderFirst(p[1..], q[1..], x, y);
    } else {
      assert p[1] == q[1] && p[2] < q[2];
      assert p[1..][1..][0] == p[2] && q[1..][1..][0] == q[2];
      EscapesOrderFirst(p[1..][1..], q[1..][1..], x, y);
      EscapesOrderNext(p[1..], q[1..], x, y);
    }
    EscapesOrderNext(p, q, x, y);
  }

  /** Two different units, and the order their encodings take: escapes come before everything that is not escaped. */
  predicate UnitsKeepOrder(u: Unit, v: Unit) {
    Unreserved(u) == Unreserved(v) || (u < v <==> Unreserved(v))
  }

  lemma UnitOrders(u: Unit, v: Unit, x: Text, y: Text)
    requires !IsSurrogate(u) && !IsSurrogate(v) && u != v
    ensures (Below(EncodeUnit(u, true) + x, EncodeUnit(v, true) + y) <==> u < v) <==> UnitsKeepOrder(u, v)
  {
    var a, b := EncodeUnit(u, true), EncodeUnit(v, true);
    if Unreserved(u) != Unreserved(v) {
      assert (if Unreserved(u) then b else a)[0] == PERCENT;
    } else if !Unreserved(u) {
      if u < v {
        Utf8Orders(u, v, x, y);
      } else {
        Utf8Orders(v, u, y, x);
        BelowIsTotal(a + x, b + y);
      }
    }
  }

  /** Where two texts part: neither is the other's beginning, and this is the first place they differ. */
  predicate PartAt(a: Text, b: Text, i: nat) {
    i < |a| && i < |b| && a[..i] == b[..i] && a[i] != b[i]
  }

  lemma {:induction false} UriEncodeSplits(s: Text, i: nat)
    requires i < |s|
    ensures UriEncode(s, true) == UriEncode(s[..i], true) + (EncodeUnit(s[i], true) + UriEncode(s[i + 1..], true))
  {
    if i > 0 {
      UriEncodeSplits(s[1..], i - 1);
      assert s[1..][..i - 1] == s[..i][1..] && s[1..][i..] == s[i + 1..];
    } else {
      assert s[..0] == [];
    }
  }

  lemma {:induction false} BelowAt(a: Text, b: Text, i: nat)
    requires PartAt(a, b, i)
    ensures Below(a, b) <==> a[i] < b[i]
  {
    BelowAfter(a[..i], a[i..], b[i..]);
    assert a == a[..i] + a[i..] && b == b[..i] + b[i..];
  }

  /**
   The program sorts raw names where the signing standard sorts encoded ones. For
   names without surrogates the two orders agree exactly when, at the first place the
   names differ, both characters are escaped, or neither is, or the escaped one is the
   smaller.
   */
  lemma OrdersAgreeExactly(a: Text, b: Text, i: nat)
    requires SurrogateFree(a) && SurrogateFree(b) && PartAt(a, b, i)
    ensures (Below(UriEncode(a, true), UriEncode(b, true)) <==> Below(a, b)) <==> UnitsKeepOrder(a[i], b[i])
  {
    BelowAt(a, b, i);
    UriEncodeSplits(a, i);
    UriEncodeSplits(b, i);
    var x, y := UriEncode(a[i + 1..], true), UriEncode(b[i + 1..], true);
    BelowAfter(UriEncode(a[..i], true), EncodeUnit(a[i], true) + x, EncodeUnit(b[i], true) + y);
    UnitOrders(a[i], b[i], x, y);
  }

  /** And a beginning of a name comes before it in both orders. */
  lemma BeginningsKeepOrder(a: Text, b: Text)
    requires a < b
    ensures Below(a, b) && Below(UriEncode(a, true), UriEncode(b, true))
  {
    var i := |a|;
    var rest := b[i..];
    BelowAfter(a, [], rest);
    assert a + [] == a && a + rest == b;
    UriEncodeSplits(b, i);
    var tail := EncodeUnit(b[i], true) + UriEncode(b[i + 1..], true);
    BelowAfter(UriEncode(a, true), [], tail);
    assert b[..i] == a && UriEncode(a, true) + [] == UriEncode(a, true);
  }

  /** `0` and `:` come in different orders raw and encoded. */
  lemma OrdersCanDiffer()
    ensures Below([0x30], [0x3A]) && Below(UriEncode([0x3A], true), UriEncode([0x30], true))
  {
    OrdersAgreeExactly([0x30], [0x3A], 0);
    assert Below([0x30], [0x3A]);
    BelowIsTotal(UriEncode([0x30], true), UriEncode([0x3A], true));
    EncodesAlikeExactly([0x30], [0x3A], true);
    assert AllReplaced([0x30])[0] != AllReplaced([0x3A])[0];
  }

  // ---------------------------------------------------------------- sorting

  predicate Sorted(pairs: seq<Pair>) {
    forall i, j :: 0 <= i < j < |pairs| ==> AtMost(pairs[i], pairs[j])
  }

  /** A pair put before the first one it does not come after. */
  function Insert(pair: Pair, sorted: seq<Pair>): (r: seq<Pair>)
    ensures |r| == |sorted| + 1
  {
    if |sorted| == 0 || AtMost(pair, sorted[0]) then [pair] + sorted else [sorted[0]] + Insert(pair, sorted[1..])
  }

  function Sort(pairs: seq<Pair>): (r: seq<Pair>)
    ensures |r| == |pairs|
  {
    if |pairs| == 0 then [] else Insert(pairs[|pairs| - 1], Sort(pairs[..|pairs| - 1]))
  }

  lemma {:induction false} InsertKeeps(pair: Pair, sorted: seq<Pair>)
    ensures multiset(Insert(pair, sorted)) == multiset(sorted) + multiset{pair}
  {
    if |sorted| > 0 && !AtMost(pair, sorted[0]) {
      InsertKeeps(pair, sorted[1..]);
      assert sorted == [sorted[0]] + sorted[1..];
    }
  }

  lemma {:induction false} InsertSorts(pair: Pair, sorted: seq<Pair>)
    requires Sorted(sorted)
    ensures Sorted(Insert(pair, sorted))
  {
    if |sorted| > 0 && !AtMost(pair, sorted[0]) {
      var rest := Insert(pair, sorted[1..]);
      InsertSorts(pair, sorted[1..]);
      InsertKeeps(pair, sorted[1..]);
      AtMostIsTotal(pair, sorted[0]);
      forall i | 0 <= i < |rest| ensures AtMost(sorted[0], rest[i]) {
        assert rest[i] in multiset(rest);
        if rest[i] != pair { assert rest[i] in sorted[1..]; }
      }
    } else if |sorted| > 0 {
      forall i | 0 < i < |sorted| ensures AtMost(pair, sorted[i]) {
        AtMostIsTransitive(pair, sorted[0], sorted[i]);
      }
    }
  }

  lemma {:induction false} SortSorts(pairs: seq<Pair>)
    ensures Sorted(Sort(pairs)) && multiset(Sort(pairs)) == multiset(pairs)
  {
    if |pairs| > 0 {
      SortSorts(pairs[..|pairs| - 1]);
      InsertSorts(pairs[|pairs| - 1], Sort(pairs[..|pairs| - 1]));
      InsertKeeps(pairs[|pairs| - 1], Sort(pairs[..|pairs| - 1]));
      assert pairs == pairs[..|pairs| - 1] + [pairs[|pairs| - 1]];
    }
  }

  /** The first of a sorted sequence is at most anything in it. */
  lemma FirstIsLeast(p: seq<Pair>, pair: Pair)
    requires |p| > 0 && Sorted(p) && pair in multiset(p)
    ensures AtMost(p[0], pair)
  {
    var i :| 0 <= i < |p| && p[i] == pair;
    AtMostIsTotal(p[0], p[0]);
  }

  lemma WithoutFirst(p: seq<Pair>)
    requires |p| > 0
    ensures multiset(p[1..]) == multiset(p) - multiset{p[0]}
  {
    assert p == [p[0]] + p[1..];
  }

  /** There is one way to sort a collection of pairs. */
  lemma {:induction false} SortedIsUnique(p: seq<Pair>, q: seq<Pair>)
    requires Sorted(p) && Sorted(q) && multiset(p) == multiset(q)
    ensures p == q
  {
    assert |p| == |multiset(p)| == |multiset(q)| == |q|;
    if |p| > 0 {
      assert p[0] in multiset(p) && q[0] in multiset(q);
      FirstIsLeast(p, q[0]);
      FirstIsLeast(q, p[0]);
      AtMostIsTotal(p[0], q[0]);
      WithoutFirst(p);
      WithoutFirst(q);
      SortedIsUnique(p[1..], q[1..]);
      assert p == [p[0]] + p[1..] && q == [q[0]] + q[1..];
    }
  }

  // ---------------------------------------------------------------- the query

  function Encoded(pair: Pair): Pair {
    (UriEncode(pair.0, true), UriEncode(pair.1, true))
  }

  function AllEncoded(pairs: seq<Pair>): (r: seq<Pair>)
    ensures |r| == |pairs|
  {
    seq(|pairs|, i requires 0 <= i < |pairs| => Encoded(pairs[i]))
  }

  function Item(pair: Pair): Text {
    pair.0 + [EQUALS] + pair.1
  }

  function Joined(pairs: seq<Pair>): Text {
    if |pairs| == 0 then []
    else if |pairs| == 1 then Item(pairs[0])
    else Item(pairs[0]) + [AMPERSAND] + Joined(pairs[1..])
  }

  /** The program's query: sorted, then encoded and joined. */
  function CanonicalQuery(params: seq<Pair>): Text {
    Joined(AllEncoded(Sort(params)))
  }

  /** The signing standard's query: encoded, then sorted and joined. */
  function StandardQuery(params: seq<Pair>): Text {
    Joined(Sort(AllEncoded(params)))
  }

  lemma {:induction false} SplitFree(s: Text, u: Unit)
    requires Free(s, u)
    ensures SplitAt(s, u) == [s]
  {
    if |s| > 0 {
      SplitFree(s[1..], u);
      assert s == [s[0]] + s[1..];
    }
  }

  lemma {:induction false} JoinedSplits(pairs: seq<Pair>)
    requires |pairs| > 0 && Separable(pairs)
    ensures |SplitAt(Joined(pairs), AMPERSAND)| == |pairs|
    ensures forall i :: 0 <= i < |pairs| ==> SplitAt(Joined(pairs), AMPERSAND)[i] == Item(pairs[i])
  {
    ItemShape(pairs[0]);
    if |pairs| == 1 {
      SplitFree(Item(pairs[0]), AMPERSAND);
    } else {
      JoinedSplits(pairs[1..]);
      var rest := [AMPERSAND] + Joined(pairs[1..]);
      assert rest[1..] == Joined(pairs[1..]);
      SplitAfterFree(Item(pairs[0]), rest, AMPERSAND);
      assert Joined(pairs) == Item(pairs[0]) + rest;
      assert Item(pairs[0]) + [] == Item(pairs[0]);
    }
  }

  lemma ItemSplits(pair: Pair)
    requires Free(pair.0, EQUALS) && Free(pair.1, EQUALS)
    ensures SplitAt(Item(pair), EQUALS) == [pair.0, pair.1]
  {
    var rest := [EQUALS] + pair.1;
    assert rest[1..] == pair.1;
    SplitFree(pair.1, EQUALS);
    SplitAfterFree(pair.0, rest, EQUALS);
    assert Item(pair) == pair.0 + rest && pair.0 + [] == pair.0;
  }

  /**
   Read back, the query is its parameters: between the ampersands one item each, in
   sorted order, and in each the name and the value in normal encoding around one equals
   sign. Without parameters it is empty.
   */
  lemma QueryReads(params: seq<Pair>)
    ensures params == [] ==> CanonicalQuery(params) == []
    ensures params != [] ==>
              var items, sorted := SplitAt(CanonicalQuery(params), AMPERSAND), Sort(params);
              |items| == |sorted| && forall i :: 0 <= i < |items| ==> ItemReads(items[i], sorted[i])
  {
    if params != [] {
      var sorted := Sort(params);
      EncodedSeparable(sorted);
      JoinedSplits(AllEncoded(sorted));
      forall i | 0 <= i < |sorted| ensures ItemReads(SplitAt(CanonicalQuery(params), AMPERSAND)[i], sorted[i]) {
        ItemSplits(AllEncoded(sorted)[i]);
        EncodesNormally(sorted[i].0, true);
        EncodesNormally(sorted[i].1, true);
      }
    }
  }

  predicate ItemReads(item: Text, pair: Pair) {
    var halves := SplitAt(item, EQUALS);
    |halves| == 2 && NormallyEncodes(pair.0, halves[0], false) && NormallyEncodes(pair.1, halves[1], false)
  }

  /** The query does not depend on the order the parameters came in. */
  lemma QueryIgnoresOrder(p: seq<Pair>, q: seq<Pair>)
    requires multiset(p) == multiset(q)
    ensures CanonicalQuery(p) == CanonicalQuery(q)
  {
    SortSorts(p);
    SortSorts(q);
    SortedIsUnique(Sort(p), Sort(q));
  }

  predicate Free(s: Text, u: Unit) {
    forall i :: 0 <= i < |s| ==> s[i] != u
  }

  lemma {:induction false} EscapesFree(bytes: seq<Byte>)
    ensures Free(Escapes(bytes), AMPERSAND) && Free(Escapes(bytes), EQUALS)
  {
    if |bytes| > 0 { EscapesFree(bytes[1..]); }
  }

  lemma {:induction false} EncodedFree(s: Text)
    ensures Free(UriEncode(s, true), AMPERSAND) && Free(UriEncode(s, true), EQUALS)
  {
    if |s| > 0 {
      EncodedFree(s[1..]);
      EscapesFree(Utf8(Replaced(s[0])));
    }
  }

  lemma CutAt(a: Text, b: Text, u: Unit, x: Text, y: Text)
    requires Free(a, u) && Free(b, u) && a + [u] + x == b + [u] + y
    ensures a == b && x == y
  {
    var s := a + [u] + x;
    assert s[|a|] == u && (b + [u] + y)[|b|] == u;
    assert forall i :: 0 <= i < |a| ==> s[i] == a[i];
    assert forall i :: 0 <= i < |b| ==> (b + [u] + y)[i] == b[i];
    assert s[..|a|] == a && (b + [u] + y)[..|b|] == b;
    assert s[|a| + 1..] == x && (b + [u] + y)[|b| + 1..] == y;
  }

  /** No name and no value holds a separator. */
  predicate Separable(pairs: seq<Pair>) {
    forall i :: 0 <= i < |pairs| ==>
                  && Free(pairs[i].0, AMPERSAND) && Free(pairs[i].0, EQUALS)
                  && Free(pairs[i].1, AMPERSAND) && Free(pairs[i].1, EQUALS)
  }

  lemma EncodedSeparable(pairs: seq<Pair>)
    ensures Separable(AllEncoded(pairs))
  {
    forall i | 0 <= i < |pairs| ensures Free(AllEncoded(pairs)[i].0, AMPERSAND) && Free(AllEncoded(pairs)[i].0, EQUALS)
                                     && Free(AllEncoded(pairs)[i].1, AMPERSAND) && Free(AllEncoded(pairs)[i].1, EQUALS)
    {
      EncodedFree(pairs[i].0);
      EncodedFree(pairs[i].1);
    }
  }

  lemma ItemShape(a: Pair)
    requires Free(a.0, AMPERSAND) && Free(a.1, AMPERSAND)
    ensures Free(Item(a), AMPERSAND) && Item(a) != []
  {
  }

  /** Whether a query is empty, and whether it holds a separator, tells how many pairs it can have. */
  lemma JoinedShape(pairs: seq<Pair>)
    requires Separable(pairs)
    ensures Joined(pairs) == [] <==> |pairs| == 0
    ensures Free(Joined(pairs), AMPERSAND) <==> |pairs| <= 1
  {
    if |pairs| > 0 { ItemShape(pairs[0]); }
    if |pairs| > 1 { assert Joined(pairs)[|Item(pairs[0])|] == AMPERSAND; }
  }

  /** What was joined can be told apart again. */
  lemma {:induction false} JoinedApart(p: seq<Pair>, q: seq<Pair>)
    requires Separable(p) && Separable(q) && Joined(p) == Joined(q)
    ensures p == q
  {
    JoinedShape(p);
    JoinedShape(q);
    if |p| > 1 && |q| > 1 {
      ItemShape(p[0]);
      ItemShape(q[0]);
      CutAt(Item(p[0]), Item(q[0]), AMPERSAND, Joined(p[1..]), Joined(q[1..]));
      CutAt(p[0].0, q[0].0, EQUALS, p[0].1, q[0].1);
      JoinedApart(p[1..], q[1..]);
      assert p == [p[0]] + p[1..] && q == [q[0]] + q[1..];
    } else if |p| == 1 && |q| == 1 {
      CutAt(p[0].0, q[0].0, EQUALS, p[0].1, q[0].1);
    }
  }

  function PairReplaced(pair: Pair): Pair {
    (AllReplaced(pair.0), AllReplaced(pair.1))
  }

  /** The same pairs in the same places, surrogates replaced. */
  predicate AllAlike(p: seq<Pair>, q: seq<Pair>) {
    |p| == |q| && forall i :: 0 <= i < |p| ==> PairReplaced(p[i]) == PairReplaced(q[i])
  }

  lemma EncodedAlike(p: seq<Pair>, q: seq<Pair>)
    ensures AllEncoded(p) == AllEncoded(q) <==> AllAlike(p, q)
  {
    if |p| == |q| {
      forall i | 0 <= i < |p|
        ensures AllEncoded(p)[i] == AllEncoded(q)[i] <==> PairReplaced(p[i]) == PairReplaced(q[i])
      {
        EncodesAlikeExactly(p[i].0, q[i].0, true);
        EncodesAlikeExactly(p[i].1, q[i].1, true);
      }
    }
  }

  /** Any two queries are the same exactly when their sorted parameters are, up to surrogates. */
  lemma QueriesAgreeExactly(p: seq<Pair>, q: seq<Pair>)
    ensures CanonicalQuery(p) == CanonicalQuery(q) <==> AllAlike(Sort(p), Sort(q))
  {
    EncodedSeparable(Sort(p));
    EncodedSeparable(Sort(q));
    EncodedAlike(Sort(p), Sort(q));
    if CanonicalQuery(p) == CanonicalQuery(q) {
      JoinedApart(AllEncoded(Sort(p)), AllEncoded(Sort(q)));
    }
  }

  // ---------------------------------------------------------------- the program's query and the standard's

  /** Encoding keeps the order of these parameters. */
  predicate OrderKept(pairs: seq<Pair>) {
    forall i, j :: 0 <= i < |pairs| && 0 <= j < |pairs| && AtMost(pairs[i], pairs[j]) ==>
                     AtMost(Encoded(pairs[i]), Encoded(pairs[j]))
  }

  lemma FirstEncoded(first: Pair, rest: seq<Pair>)
    ensures AllEncoded([first] + rest) == [Encoded(first)] + AllEncoded(rest)
  {
  }

  lemma {:induction false} InsertEncodes(pair: Pair, sorted: seq<Pair>)
    ensures multiset(AllEncoded(Insert(pair, sorted))) == multiset(AllEncoded(sorted)) + multiset{Encoded(pair)}
  {
    if |sorted| == 0 || AtMost(pair, sorted[0]) {
      FirstEncoded(pair, sorted);
    } else {
      InsertEncodes(pair, sorted[1..]);
      FirstEncoded(sorted[0], Insert(pair, sorted[1..]));
      FirstEncoded(sorted[0], sorted[1..]);
      assert sorted == [sorted[0]] + sorted[1..];
    }
  }

  /** Encoding what was sorted and sorting what was encoded gives the same pairs, perhaps in another order. */
  lemma {:induction false} SortEncodes(pairs: seq<Pair>)
    ensures multiset(AllEncoded(Sort(pairs))) == multiset(AllEncoded(pairs))
  {
    if |pairs| > 0 {
      var before := pairs[..|pairs| - 1];
      SortEncodes(before);
      InsertEncodes(pairs[|pairs| - 1], Sort(before));
      assert AllEncoded(pairs) == AllEncoded(before) + [Encoded(pairs[|pairs| - 1])];
    }
  }

  /** The same pairs in any order keep their order when encoded, or do not. */
  lemma OrderKeptAnyway(p: seq<Pair>, q: seq<Pair>)
    requires multiset(p) == multiset(q) && OrderKept(p)
    ensures OrderKept(q)
  {
    forall i, j | 0 <= i < |q| && 0 <= j < |q| && AtMost(q[i], q[j]) ensures AtMost(Encoded(q[i]), Encoded(q[j])) {
      assert q[i] in multiset(q) && q[j] in multiset(q);
      var k :| 0 <= k < |p| && p[k] == q[i];
      var m :| 0 <= m < |p| && p[m] == q[j];
    }
  }

  /** A sorted sequence stays sorted when encoded exactly when encoding keeps the order of what is in it. */
  lemma SortedEncoded(p: seq<Pair>)
    requires Sorted(p)
    ensures Sorted(AllEncoded(p)) <==> OrderKept(p)
  {
    if Sorted(AllEncoded(p)) {
      forall i, j | 0 <= i < |p| && 0 <= j < |p| && AtMost(p[i], p[j]) ensures AtMost(Encoded(p[i]), Encoded(p[j])) {
        AtMostIsTotal(p[i], p[j]);
        AtMostIsTotal(Encoded(p[i]), Encoded(p[i]));
        if i < j {
          assert AtMost(AllEncoded(p)[i], AllEncoded(p)[j]);
        } else if i > j {
          assert AtMost(p[j], p[i]);
        }
      }
    } else {
      var i, j :| 0 <= i < j < |p| && !AtMost(AllEncoded(p)[i], AllEncoded(p)[j]);
      assert AtMost(p[i], p[j]);
    }
  }

  /**
   The program signs the query the standard asks for if and only if encoding keeps the
   order of the request's own parameters.
   */
  lemma SignsStandardExactly(params: seq<Pair>)
    ensures CanonicalQuery(params) == StandardQuery(params) <==> OrderKept(params)
  {
    SortSorts(params);
    SortSorts(AllEncoded(params));
    SortEncodes(params);
    SortedEncoded(Sort(params));
    var ours, theirs := AllEncoded(Sort(params)), Sort(AllEncoded(params));
    if CanonicalQuery(params) == StandardQuery(params) {
      EncodedSeparable(Sort(params));
      SortedSeparable(AllEncoded(params), params);
      JoinedApart(ours, theirs);
      OrderKeptAnyway(Sort(params), params);
    } else if OrderKept(params) {
      OrderKeptAnyway(params, Sort(params));
      SortedIsUnique(ours, theirs);
    }
  }

  lemma SortedSeparable(pairs: seq<Pair>, raw: seq<Pair>)
    requires pairs == AllEncoded(raw)
    ensures Separable(Sort(pairs))
  {
    EncodedSeparable(raw);
    SortSorts(pairs);
    var sorted := Sort(pairs);
    forall i | 0 <= i < |sorted| ensures sorted[i] in pairs {
      assert sorted[i] in multiset(sorted);
    }
  }

  /**
   Parameters of different names without surrogates keep their order exactly when, where
   the names part, the units do.
   */
  lemma NamesKeepOrderExactly(a: Pair, b: Pair, i: nat)
    requires SurrogateFree(a.0) && SurrogateFree(b.0) && PartAt(a.0, b.0, i)
    ensures OrderKept([a, b]) <==> UnitsKeepOrder(a.0[i], b.0[i])
  {
    OrdersAgreeExactly(a.0, b.0, i);
    EncodesAlikeExactly(a.0, b.0, true);
    ReplacedExactly(a.0);
    ReplacedExactly(b.0);
    BelowIsTotal(a.0, b.0);
    BelowIsTotal(UriEncode(a.0, true), UriEncode(b.0, true));
    AtMostIsTotal(Encoded(a), Encoded(a));
    AtMostIsTotal(Encoded(b), Encoded(b));
    var both := [a, b];
    if OrderKept(both) {
      assert AtMost(both[0], both[1]) ==> AtMost(Encoded(both[0]), Encoded(both[1]));
      assert AtMost(both[1], both[0]) ==> AtMost(Encoded(both[1]), Encoded(both[0]));
    }
  }

  predicate PlainPairs(pairs: seq<Pair>) {
    forall i :: 0 <= i < |pairs| ==> SurrogateFree(pairs[i].0) && SurrogateFree(pairs[i].1)
  }

  /**
   For parameters without surrogates, two queries are the same exactly when they have the
   same parameters, in any order.
   */
  lemma PlainQueriesAgreeExactly(p: seq<Pair>, q: seq<Pair>)
    requires PlainPairs(p) && PlainPairs(q)
    ensures CanonicalQuery(p) == CanonicalQuery(q) <==> multiset(p) == multiset(q)
  {
    SortSorts(p);
    SortSorts(q);
    QueriesAgreeExactly(p, q);
    if CanonicalQuery(p) == CanonicalQuery(q) {
      SortIsPlain(p);
      SortIsPlain(q);
      PlainPairsAlike(Sort(p), Sort(q));
    } else if multiset(p) == multiset(q) {
      QueryIgnoresOrder(p, q);
    }
  }

  lemma PlainPairsAlike(p: seq<Pair>, q: seq<Pair>)
    requires PlainPairs(p) && PlainPairs(q) && AllAlike(p, q)
    ensures p == q
  {
    forall i | 0 <= i < |p| ensures p[i] == q[i] {
      ReplacedExactly(p[i].0);
      ReplacedExactly(p[i].1);
      ReplacedExactly(q[i].0);
      ReplacedExactly(q[i].1);
    }
  }

  lemma SortIsPlain(pairs: seq<Pair>)
    requires PlainPairs(pairs)
    ensures PlainPairs(Sort(pairs))
  {
    SortSorts(pairs);
    forall i | 0 <= i < |Sort(pairs)| ensures SurrogateFree(Sort(pairs)[i].0) && SurrogateFree(Sort(pairs)[i].1) {
      assert Sort(pairs)[i] in multiset(Sort(pairs));
      var k :| 0 <= k < |pairs| && pairs[k] == Sort(pairs)[i];
    }
  }

  // ---------------------------------------------------------------- the program

  /** Collect the parameters, sort them, and join the encoded pairs. */
  method CanonicaliseQuery(entries: seq<Pair>) returns (query: Text)
    ensures query == CanonicalQuery(entries)
  {
    var params: seq<Pair> := [];
    for i := 0 to |entries|
      invariant params == entries[..i]
    {
      params := params + [entries[i]];
    }
    assert params == entries;
    params := Sort(params);
    query := Joined(AllEncoded(params));
  }
}
