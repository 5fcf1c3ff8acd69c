/** Paths as lists of components: printing them, and splitting, filtering and decoding them back. */
module UrlPaths {
  import opened Contracts
  import opened UriText

  function FirstSlash(s: Text): (i: nat)
    ensures i <= |s| && (i < |s| ==> s[i] == SLASH)
    ensures forall k :: 0 <= k < i ==> s[k] != SLASH
  {
    if |s| == 0 || s[0] == SLASH then 0 else 1 + FirstSlash(s[1..])
  }

  /** The pieces of a path between its slashes, empty ones included. */
  function Split(s: Text): (pieces: seq<Text>)
    ensures |pieces| >= 1
    decreases |s|
  {
    var i := FirstSlash(s);
    if i == |s| then [s] else [s[..i]] + Split(s[i + 1..])
  }

  function NonEmpty(pieces: seq<Text>): (kept: seq<Text>)
    ensures forall i :: 0 <= i < |kept| ==> kept[i] != []
  {
    if |pieces| == 0 then []
    else if pieces[0] == [] then NonEmpty(pieces[1..])
    else [pieces[0]] + NonEmpty(pieces[1..])
  }

  function DecodeAll(pieces: seq<Text>): (decoded: Option<seq<Text>>)
    ensures decoded.Some? ==> |decoded.value| == |pieces|
  {
    if |pieces| == 0 then Some([])
    else
      var first, rest := Decode(pieces[0]), DecodeAll(pieces[1..]);
      if first.Some? && rest.Some? then Some([first.value] + rest.value) else None
  }

  function Stripped(s: Text): (r: Text)
    ensures r != [] ==> r[|r| - 1] != SLASH
  {
    if |s| > 0 && s[|s| - 1] == SLASH then Stripped(s[..|s| - 1]) else s
  }

  /** The path without its trailing slashes. */
  function Clean(s: Text): Text {
    if Stripped(s) == [] then [SLASH] else Stripped(s)
  }

  /** The decoded components of a path. */
  function Components(clean: Text): Option<seq<Text>> {
    DecodeAll(NonEmpty(Split(clean)))
  }

  function Joined(pieces: seq<Text>): Text {
    if |pieces| == 0 then [] else [SLASH] + pieces[0] + Joined(pieces[1..])
  }

  predicate SlashFree(s: Text) {
    forall i :: 0 <= i < |s| ==> s[i] != SLASH
  }

  // ---------------------------------------------------------------- cleaning

  lemma {:induction false} StrippedTwice(s: Text)
    ensures Stripped(Stripped(s)) == Stripped(s)
  {
    if |s| > 0 && s[|s| - 1] == SLASH { StrippedTwice(s[..|s| - 1]); }
  }

  lemma CleanTwice(s: Text)
    ensures Clean(Clean(s)) == Clean(s)
  {
    StrippedTwice(s);
    assert [SLASH][..0] == [];
    if Stripped(s) == [] { assert Stripped([SLASH]) == Stripped([]); }
  }

  // ---------------------------------------------------------------- splitting undoes joining

  lemma {:induction false} FirstSlashIs(s: Text, i: nat)
    requires i <= |s| && (i < |s| ==> s[i] == SLASH) && SlashFree(s[..i])
    ensures FirstSlash(s) == i
  {
    if i > 0 {
      assert s[0] == s[..i][0];
      assert s[1..][..i - 1] == s[..i][1..];
      FirstSlashIs(s[1..], i - 1);
    }
  }

  lemma {:induction false} SplitJoined(first: Text, rest: seq<Text>)
    requires SlashFree(first) && forall i :: 0 <= i < |rest| ==> SlashFree(rest[i])
    ensures Split(first + Joined(rest)) == [first] + rest
    decreases |rest|
  {
    var s := first + Joined(rest);
    assert s[..|first|] == first;
    FirstSlashIs(s, |first|);
    if |rest| > 0 {
      assert s[|first| + 1..] == rest[0] + Joined(rest[1..]);
      SplitJoined(rest[0], rest[1..]);
    } else {
      assert s == first;
    }
  }

  lemma {:induction false} NonEmptyKeeps(pieces: seq<Text>)
    requires forall i :: 0 <= i < |pieces| ==> pieces[i] != []
    ensures NonEmpty(pieces) == pieces
  {
    if |pieces| > 0 { NonEmptyKeeps(pieces[1..]); }
  }

  lemma {:induction false} JoinedEnd(pieces: seq<Text>)
    requires |pieces| > 0 && forall i :: 0 <= i < |pieces| ==> pieces[i] != [] && SlashFree(pieces[i])
    ensures |Joined(pieces)| >= 2 && Joined(pieces)[|Joined(pieces)| - 1] != SLASH
    ensures Joined(pieces)[0] == SLASH && Joined(pieces)[1] == pieces[0][0]
  {
    if |pieces| > 1 {
      JoinedEnd(pieces[1..]);
    } else {
      assert Joined(pieces) == [SLASH] + pieces[0];
    }
  }

  /** A path of non-empty slash-free pieces is clean, and its components are the decoded pieces. */
  lemma ComponentsJoined(pieces: seq<Text>)
    requires |pieces| > 0 && forall i :: 0 <= i < |pieces| ==> pieces[i] != [] && SlashFree(pieces[i])
    ensures Clean(Joined(pieces)) == Joined(pieces)
    ensures Components(Joined(pieces)) == DecodeAll(pieces)
  {
    JoinedEnd(pieces);
    assert [] + Joined(pieces) == Joined(pieces);
    SplitJoined([], pieces);
    NonEmptyKeeps(pieces);
    assert ([[]] + pieces)[1..] == pieces;
  }

  // ---------------------------------------------------------------- surrogates stay together

  lemma {:induction false} WellFormedAround(a: Text, rest: Text)
    ensures WellFormed(a + [SLASH] + rest) <==> WellFormed(a) && WellFormed(rest)
    decreases |a|
  {
    var s := a + [SLASH] + rest;
    if |a| == 0 {
      assert s[1..] == rest;
    } else if IsHigh(a[0]) {
      if |a| >= 2 {
        assert s[2..] == a[2..] + [SLASH] + rest;
        WellFormedAround(a[2..], rest);
      } else {
        assert s[1] == SLASH;
      }
    } else {
      assert s[1..] == a[1..] + [SLASH] + rest;
      WellFormedAround(a[1..], rest);
    }
  }

  lemma {:induction false} StrippedWellFormed(s: Text)
    ensures WellFormed(Stripped(s)) <==> WellFormed(s)
  {
    if |s| > 0 && s[|s| - 1] == SLASH {
      assert s == s[..|s| - 1] + [SLASH] + [];
      WellFormedAround(s[..|s| - 1], []);
      StrippedWellFormed(s[..|s| - 1]);
    }
  }

  predicate AllWellFormed(texts: seq<Text>) {
    forall i :: 0 <= i < |texts| ==> WellFormed(texts[i])
  }

  lemma AllWellFormedPrepends(first: Text, rest: seq<Text>)
    ensures AllWellFormed([first] + rest) <==> WellFormed(first) && AllWellFormed(rest)
  {
    var all := [first] + rest;
    assert all[0] == first;
    assert forall i :: 0 <= i < |rest| ==> rest[i] == all[i + 1];
  }

  lemma {:induction false} SplitWellFormed(s: Text)
    ensures AllWellFormed(Split(s)) <==> WellFormed(s)
    decreases |s|
  {
    var i := FirstSlash(s);
    if i < |s| {
      assert s == s[..i] + [SLASH] + s[i + 1..];
      WellFormedAround(s[..i], s[i + 1..]);
      SplitWellFormed(s[i + 1..]);
      AllWellFormedPrepends(s[..i], Split(s[i + 1..]));
    } else {
      assert Split(s)[0] == s;
    }
  }

  lemma {:induction false} NonEmptyWellFormed(pieces: seq<Text>)
    ensures AllWellFormed(NonEmpty(pieces)) <==> AllWellFormed(pieces)
  {
    if |pieces| > 0 {
      NonEmptyWellFormed(pieces[1..]);
      AllWellFormedPrepends(pieces[0], pieces[1..]);
      AllWellFormedPrepends(pieces[0], NonEmpty(pieces[1..]));
      assert pieces == [pieces[0]] + pieces[1..];
    }
  }

  lemma {:induction false} DecodeAllWellFormed(pieces: seq<Text>)
    requires DecodeAll(pieces).Some? && forall i :: 0 <= i < |pieces| ==> pieces[i] != []
    ensures AllWellFormed(DecodeAll(pieces).value) <==> AllWellFormed(pieces)
    ensures forall i :: 0 <= i < |pieces| ==> DecodeAll(pieces).value[i] != []
  {
    if |pieces| > 0 {
      DecodeWellFormed(pieces[0]);
      DecodeAllWellFormed(pieces[1..]);
      AllWellFormedPrepends(pieces[0], pieces[1..]);
      AllWellFormedPrepends(Decode(pieces[0]).value, DecodeAll(pieces[1..]).value);
      assert pieces == [pieces[0]] + pieces[1..];
    }
  }

  /** A path's components are non-empty, and a lone surrogate is in one of them exactly when it is in the path. */
  lemma ComponentsWellFormed(path: Text)
    requires Components(Clean(path)).Some?
    ensures AllWellFormed(Components(Clean(path)).value) <==> WellFormed(path)
    ensures forall i :: 0 <= i < |Components(Clean(path)).value| ==> Components(Clean(path)).value[i] != []
  {
    StrippedWellFormed(path);
    assert WellFormed([SLASH]) by { assert [SLASH][1..] == []; }
    SplitWellFormed(Clean(path));
    NonEmptyWellFormed(Split(Clean(path)));
    DecodeAllWellFormed(NonEmpty(Split(Clean(path))));
  }
}
