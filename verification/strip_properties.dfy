/** Properties of the colour-stripping replacement modelled in AnsiStrip:
    what it leaves alone, that it only deletes, that it splits at barrier
    units, and how it treats Select Graphic Rendition sequences. */
module StripProperties {
  import opened JsText
  import opened AnsiStrip
  import opened MatchFacts

  predicate NoIntro(s: Text) {
    forall i | 0 <= i < |s| :: !IsIntro(s[i])
  }

  /** A string with no ESC and no CSI unit comes out unchanged. */
  lemma {:induction false} StripWithoutIntro(s: Text)
    requires NoIntro(s)
    ensures Strip(s) == s
    decreases |s|
  {
    if s != [] {
      assert MatchAt(s, 0).None?;
      StripWithoutIntro(s[1..]);
    }
  }

  /** `a` can be obtained from `b` by deleting units, keeping the order. */
  predicate IsSubsequence(a: Text, b: Text)
    decreases |b|
  {
    if a == [] then true
    else if b == [] then false
    else if a[0] == b[0] then IsSubsequence(a[1..], b[1..])
    else IsSubsequence(a, b[1..])
  }

  /** Prepending a unit to the longer text keeps a subsequence one. */
  lemma {:induction false} SubsequenceCons(a: Text, b: Text)
    requires b != [] && IsSubsequence(a, b[1..])
    ensures IsSubsequence(a, b)
    decreases |a| + |b|, 1
  {
    if a != [] && a[0] == b[0] {
      SubsequenceDropFirst(a, b[1..]);
    }
  }

  /** Dropping the first unit of a subsequence keeps it one. */
  lemma {:induction false} SubsequenceDropFirst(a: Text, c: Text)
    requires a != [] && IsSubsequence(a, c)
    ensures IsSubsequence(a[1..], c)
    decreases |a| + |c|, 0
  {
    if a[0] == c[0] {
      SubsequenceCons(a[1..], c);
    } else {
      SubsequenceDropFirst(a, c[1..]);
      SubsequenceCons(a[1..], c);
    }
  }

  lemma {:induction false} SubsequenceOfSuffix(a: Text, b: Text, k: nat)
    requires k <= |b| && IsSubsequence(a, b[k..])
    ensures IsSubsequence(a, b)
    decreases k
  {
    if k > 0 {
      assert b[k - 1..][1..] == b[k..];
      SubsequenceCons(a, b[k - 1..]);
      SubsequenceOfSuffix(a, b, k - 1);
    }
  }

  /** Every unit of the stripped text comes from the input, in the same
      order: stripping only deletes. */
  lemma {:induction false} StripIsSubsequence(s: Text)
    ensures IsSubsequence(Strip(s), s)
    decreases |s|
  {
    if s != [] {
      match MatchAt(s, 0)
      case Some(e) =>
        StripIsSubsequence(s[e..]);
        SubsequenceOfSuffix(Strip(s), s, e);
      case None =>
        StripIsSubsequence(s[1..]);
        assert Strip(s) == [s[0]] + Strip(s[1..]);
        assert (s[0..1] + Strip(s[1..]))[1..] == Strip(s[1..]);
    }
  }

  /** Stripping splits at a barrier: no match straddles the point where
      `rest` begins. */
  lemma {:induction false} StripConcat(pre: Text, rest: Text)
    requires rest == [] || IsBarrier(rest[0])
    ensures Strip(pre + rest) == Strip(pre) + Strip(rest)
    decreases |pre|
  {
    if pre == [] {
      assert pre + rest == rest;
    } else {
      var s := pre + rest;
      assert s[..|pre|] == pre;
      MatchAtCut(s, |pre|, 0);
      match MatchAt(pre, 0)
      case Some(e) =>
        assert s[e..] == pre[e..] + rest;
        StripConcat(pre[e..], rest);
      case None =>
        assert s[1..] == pre[1..] + rest;
        StripConcat(pre[1..], rest);
    }
  }

  /** The line feed appended to every logged line survives stripping
      untouched. */
  lemma StripLine(s: Text)
    ensures Strip(s + [LF]) == Strip(s) + [LF]
  {
    StripConcat(s, [LF]);
    assert [LF][1..] == [];
  }

  /** An SGR sequence embedded in text is removed whole, and the text
      before it and the text after it are each stripped separately. This is
      not stripping them joined (`SgrSeparatesItsSurroundings`). */
  lemma StripRemovesSgr(pre: Text, ps: seq<Text>, post: Text)
    requires SgrParams(ps)
    ensures Strip(pre + Sgr(ps) + post) == Strip(pre) + Strip(post)
  {
    var sgr := Sgr(ps);
    assert pre + sgr + post == pre + (sgr + post);
    StripConcat(pre, sgr + post);
    SgrMatchesWhole(ps, post);
    assert (sgr + post)[|sgr|..] == post;
  }

  /** The same for text that has no escapes of its own: exactly the
      surrounding text remains, in order. */
  lemma StripRemovesSgrFromPlainText(pre: Text, ps: seq<Text>, post: Text)
    requires SgrParams(ps) && NoIntro(pre) && NoIntro(post)
    ensures Strip(pre + Sgr(ps) + post) == pre + post
  {
    StripRemovesSgr(pre, ps, post);
    StripWithoutIntro(pre);
    StripWithoutIntro(post);
  }

  /** An introducer where no match starts is kept, with the text before
      and after it stripped on their own: the stripped copy can still hold
      an ESC or a CSI. */
  lemma IntroSurvives(pre: Text, s: Text)
    requires s != [] && IsIntro(s[0]) && MatchAt(s, 0).None?
    ensures Strip(pre + s) == Strip(pre) + [s[0]] + Strip(s[1..])
  {
    StripConcat(pre, s);
  }

  /** For instance ESC followed by `X`, a unit outside every class. */
  lemma EscapeCanSurvive()
    ensures Strip([ESC, 0x58]) == [ESC, 0x58]
  {
  }

  /** The separate stripping of `StripRemovesSgr` is observable: around
      the reset sequence ESC [ 0 m, a lone ESC and an `m` both stay,
      although stripping them joined removes both. */
  lemma SgrSeparatesItsSurroundings()
    ensures Strip([ESC] + Sgr([[ZERO]]) + [LOWER_M]) == [ESC, LOWER_M]
    ensures Strip([ESC, LOWER_M]) == []
  {
    assert AllDigits([ZERO]);
    StripRemovesSgr([ESC], [[ZERO]], [LOWER_M]);
    assert MatchAt([ESC], 0) == None;
    assert [ESC][1..] == [];
    StripWithoutIntro([LOWER_M]);
    assert MatchAt([ESC, LOWER_M], 0) == Some(2);
  }

  /** Stripping twice can remove more than stripping once: removing the
      inner sequence of ESC ESC [ m m joins the outer ESC to the last m. */
  lemma StripNotIdempotent()
    ensures Strip([ESC, ESC, LBRACKET, LOWER_M, LOWER_M]) == [ESC, LOWER_M]
    ensures Strip([ESC, LOWER_M]) == []
  {
    var s: Text := [ESC, ESC, LBRACKET, LOWER_M, LOWER_M];
    assert MatchAt(s, 0) == None;
    assert s[1..] == [ESC, LBRACKET, LOWER_M, LOWER_M];
    var t := s[1..];
    assert PrefixRun(t, 3) == 0;
    assert PrefixRun(t, 2) == 0;
    assert PrefixRun(t, 1) == 1;
    assert DigitRun(t, 2, 4) == 0;
    assert MatchParams(t, 2) == Some(3);
    assert MatchAt(t, 0) == Some(3);
    assert s[1..][3..] == [LOWER_M];
    StripWithoutIntro([LOWER_M]);
    assert MatchAt([ESC, LOWER_M], 0) == Some(2);
  }
}
