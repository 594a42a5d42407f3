/** Facts about the matcher of AnsiStrip: what the runs it measures
    cover, that backing off the prefix run never helps, that a match cannot
    run past a barrier unit, and how a Select Graphic Rendition sequence is
    matched. */
module MatchFacts {
  import opened JsText
  import opened AnsiStrip

  /** The prefix run covers `[[()#;?]` units only and stops at the first
      other unit. */
  lemma {:induction false} PrefixRunSpan(s: Text, p: nat)
    requires p <= |s|
    ensures forall j | p <= j < p + PrefixRun(s, p) :: IsPrefixUnit(s[j])
    ensures p + PrefixRun(s, p) == |s| || !IsPrefixUnit(s[p + PrefixRun(s, p)])
    decreases |s| - p
  {
    if p < |s| && IsPrefixUnit(s[p]) {
      PrefixRunSpan(s, p + 1);
    }
  }

  /** A digit run covers digits only and stops at `max` units or at the
      first non-digit. */
  lemma {:induction false} DigitRunSpan(s: Text, p: nat, max: nat)
    requires p <= |s|
    ensures forall j | p <= j < p + DigitRun(s, p, max) :: IsDigit(s[j])
    ensures var k := DigitRun(s, p, max); k == max || p + k == |s| || !IsDigit(s[p + k])
    decreases max
  {
    if max > 0 && p < |s| && IsDigit(s[p]) {
      DigitRunSpan(s, p + 1, max - 1);
    }
  }

  /** `s` ends at `n` or has a barrier there. */
  ghost predicate BarrierAt(s: Text, n: nat) {
    n <= |s| && (n < |s| ==> IsBarrier(s[n]))
  }

  lemma {:induction false} PrefixRunCut(s: Text, n: nat, p: nat)
    requires BarrierAt(s, n) && p <= n
    ensures PrefixRun(s[..n], p) == PrefixRun(s, p)
    decreases n - p
  {
    if p < n {
      PrefixRunCut(s, n, p + 1);
    }
  }

  lemma {:induction false} DigitRunCut(s: Text, n: nat, p: nat, max: nat)
    requires BarrierAt(s, n) && p <= n
    ensures DigitRun(s[..n], p, max) == DigitRun(s, p, max)
    decreases max
  {
    if p < n && max > 0 {
      DigitRunCut(s, n, p + 1, max - 1);
    }
  }

  lemma {:induction false} MatchParamTailCut(s: Text, n: nat, q: nat)
    requires BarrierAt(s, n) && q <= n
    ensures MatchParamTail(s[..n], q) == MatchParamTail(s, q)
    decreases |s| - q, 5
  {
    if q < n && s[q] == SEMICOLON {
      DigitRunCut(s, n, q + 1, 4);
      TryTailDigitsCut(s, n, q + 1, DigitRun(s, q + 1, 4));
    }
  }

  lemma {:induction false} TryTailDigitsCut(s: Text, n: nat, r: nat, m: nat)
    requires BarrierAt(s, n) && 1 <= r && r + m <= n && m <= 4
    ensures TryTailDigits(s[..n], r, m) == TryTailDigits(s, r, m)
    decreases |s| - r + 1, m
  {
    MatchParamTailCut(s, n, r + m);
    if m > 0 {
      TryTailDigitsCut(s, n, r, m - 1);
    }
  }

  lemma {:induction false} TryLeadDigitsCut(s: Text, n: nat, p: nat, k: nat)
    requires BarrierAt(s, n) && p + k <= n
    ensures TryLeadDigits(s[..n], p, k) == TryLeadDigits(s, p, k)
    decreases k
  {
    if k > 0 {
      MatchParamTailCut(s, n, p + k);
      TryLeadDigitsCut(s, n, p, k - 1);
    }
  }

  lemma MatchParamsCut(s: Text, n: nat, p: nat)
    requires BarrierAt(s, n) && p <= n
    ensures MatchParams(s[..n], p) == MatchParams(s, p)
  {
    DigitRunCut(s, n, p, 4);
    TryLeadDigitsCut(s, n, p, DigitRun(s, p, 4));
  }

  /** Giving back units of `[[()#;?]*` never helps: at a prefix unit
      neither the digit group nor the final class can start, so the match
      is decided at the end of the longest run. */
  lemma {:induction false} TryPrefixGreedy(s: Text, p: nat, k: nat)
    requires p + k <= |s|
    requires forall j | p <= j < p + k :: IsPrefixUnit(s[j])
    ensures TryPrefix(s, p, k) == MatchParams(s, p + k)
    decreases k
  {
    if k > 0 {
      TryPrefixGreedy(s, p, k - 1);
      assert IsPrefixUnit(s[p + k - 1]);
      assert MatchParams(s, p + k - 1) == None;
    }
  }

  /** With the prefix run settled greedily, a match at an introducer is
      decided by the parameters and final unit after the run. */
  lemma MatchAtAfterPrefix(s: Text, i: nat)
    requires i < |s|
    ensures MatchAt(s, i)
         == if IsIntro(s[i]) then MatchParams(s, i + 1 + PrefixRun(s, i + 1)) else None
  {
    if IsIntro(s[i]) {
      PrefixRunSpan(s, i + 1);
      TryPrefixGreedy(s, i + 1, PrefixRun(s, i + 1));
    }
  }

  /** Two texts that agree on the introducer, on the prefix run and on
      what follows it give the same match. */
  lemma MatchAtStep(s: Text, t: Text, i: nat, k: nat, r: Option<nat>)
    requires i < |s| && i < |t| && t[i] == s[i]
    requires i + 1 + k <= |s| && i + 1 + k <= |t|
    requires PrefixRun(s, i + 1) == k && PrefixRun(t, i + 1) == k
    requires MatchParams(s, i + 1 + k) == r && MatchParams(t, i + 1 + k) == r
    ensures MatchAt(t, i) == MatchAt(s, i)
  {
    MatchAtAfterPrefix(s, i);
    MatchAtAfterPrefix(t, i);
  }

  /** A match never runs past a barrier, so cutting the text at one does
      not change a match that starts before it. */
  lemma MatchAtCut(s: Text, n: nat, i: nat)
    requires BarrierAt(s, n) && i < n
    ensures MatchAt(s[..n], i) == MatchAt(s, i)
  {
    PrefixRunCut(s, n, i + 1);
    MatchParamsCut(s, n, i + 1 + PrefixRun(s, i + 1));
    var k := PrefixRun(s, i + 1);
    MatchAtStep(s, s[..n], i, k, MatchParams(s, i + 1 + k));
  }

  /** Parameters `d{1,4}(;d{0,4})*` of a Select Graphic Rendition
      sequence, one entry per parameter. */
  predicate SgrParams(ps: seq<Text>) {
    |ps| >= 1 && 1 <= |ps[0]|
    && forall i | 0 <= i < |ps| :: |ps[i]| <= 4 && AllDigits(ps[i])
  }

  /** `;p1;p2...` */
  function JoinTail(ps: seq<Text>): Text {
    if ps == [] then [] else [SEMICOLON] + ps[0] + JoinTail(ps[1..])
  }

  /** `ESC [ p0 ; p1 ; ... m` */
  function Sgr(ps: seq<Text>): Text
    requires |ps| >= 1
  {
    [ESC, LBRACKET] + ps[0] + JoinTail(ps[1..]) + [LOWER_M]
  }

  /** A run of at most `max` digits followed by a non-digit is measured
      exactly. */
  lemma {:induction false} DigitRunExact(a: Text, d: Text, b: Text, max: nat)
    requires AllDigits(d) && |d| <= max
    requires b != [] && !IsDigit(b[0])
    ensures DigitRun(a + d + b, |a|, max) == |d|
    decreases |d|
  {
    var s := a + d + b;
    if d == [] {
      assert s[|a|] == b[0];
    } else {
      assert s[|a|] == d[0];
      assert s == (a + [d[0]]) + d[1..] + b;
      DigitRunExact(a + [d[0]], d[1..], b, max - 1);
    }
  }

  /** The tail `;p1;p2...m` is taken whole: the greedy choices succeed on
      the first try. */
  lemma {:induction false} ParamTailMatchesWhole(a: Text, ps: seq<Text>, post: Text)
    requires forall i | 0 <= i < |ps| :: |ps[i]| <= 4 && AllDigits(ps[i])
    ensures MatchParamTail(a + JoinTail(ps) + [LOWER_M] + post, |a|)
         == Some(|a| + |JoinTail(ps)| + 1)
    decreases |ps|
  {
    var s := a + JoinTail(ps) + [LOWER_M] + post;
    if ps == [] {
      assert s[|a|] == LOWER_M;
    } else {
      var rest := JoinTail(ps[1..]);
      var b := rest + [LOWER_M] + post;
      assert s == (a + [SEMICOLON]) + ps[0] + b;
      assert s[|a|] == SEMICOLON;
      assert b[0] == if rest == [] then LOWER_M else SEMICOLON;
      DigitRunExact(a + [SEMICOLON], ps[0], b, 4);
      var a' := a + [SEMICOLON] + ps[0];
      assert s == a' + rest + [LOWER_M] + post;
      ParamTailMatchesWhole(a', ps[1..], post);
      TailIterationStep(s, |a|, |ps[0]|);
    }
  }

  /** When the first way through one more iteration of the tail succeeds,
      it is the match. */
  lemma TailIterationStep(s: Text, q: nat, m: nat)
    requires q + 1 + m <= |s| && m <= 4 && s[q] == SEMICOLON
    requires DigitRun(s, q + 1, 4) == m
    requires MatchParamTail(s, q + 1 + m).Some?
    ensures MatchParamTail(s, q) == MatchParamTail(s, q + 1 + m)
  {
  }

  /** A well-formed SGR sequence at the start of a string is one match,
      whatever follows it. */
  lemma SgrMatchesWhole(ps: seq<Text>, post: Text)
    requires SgrParams(ps)
    ensures MatchAt(Sgr(ps) + post, 0) == Some(|Sgr(ps)|)
  {
    var s := Sgr(ps) + post;
    var a: Text := [ESC, LBRACKET];
    var tail := JoinTail(ps[1..]);
    var b := tail + [LOWER_M] + post;
    assert s == a + ps[0] + b;
    assert b[0] == if tail == [] then LOWER_M else SEMICOLON;
    DigitRunExact(a, ps[0], b, 4);
    assert s == (a + ps[0]) + tail + [LOWER_M] + post;
    ParamTailMatchesWhole(a + ps[0], ps[1..], post);
    assert s[2] == ps[0][0];
    assert PrefixRun(s, 1) == 1;
    MatchAtAfterPrefix(s, 0);
  }
}
