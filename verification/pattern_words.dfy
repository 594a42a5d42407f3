/** The words of the colour-stripping pattern, read declaratively from its
    syntax, and the two facts that tie the matcher of AnsiStrip to them:
    every match it reports spells a word of the pattern, and wherever a
    word of the pattern starts, it reports a match. */
module PatternWords {
  import opened JsText
  import opened AnsiStrip
  import opened MatchFacts

  /** `(?:;[0-9]{0,4})*` */
  ghost predicate TailWord(t: Text)
    decreases |t|, 1
  {
    t == [] || (t[0] == SEMICOLON && exists m | 0 <= m <= 4 && 1 + m <= |t| :: TailAfterDigits(t, m))
  }

  /** One iteration `;` with `m` digits, then the rest of the tail. */
  ghost predicate TailAfterDigits(t: Text, m: nat)
    requires 1 + m <= |t|
    decreases |t|, 0
  {
    AllDigits(t[1..1 + m]) && TailWord(t[1 + m..])
  }

  /** `[0-9]{1,4}(?:;[0-9]{0,4})*` */
  ghost predicate GroupWord(g: Text) {
    exists n | 1 <= n <= 4 && n <= |g| :: LeadThenTail(g, n)
  }

  /** `n` leading digits, then the tail. */
  ghost predicate LeadThenTail(g: Text, n: nat)
    requires n <= |g|
  {
    AllDigits(g[..n]) && TailWord(g[n..])
  }

  /** `(?:[0-9]{1,4}(?:;[0-9]{0,4})*)?[0-9A-ORZcf-nqry=><]` */
  ghost predicate ParamsWord(v: Text) {
    v != [] && IsFinal(v[|v| - 1]) && (|v| == 1 || GroupWord(v[..|v| - 1]))
  }

  /** The whole pattern: an introducer, `[[()#;?]*`, then the parameters
      and the final unit. */
  ghost predicate PatternWord(w: Text) {
    |w| >= 2 && IsIntro(w[0]) && exists p | 1 <= p < |w| :: PrefixThenParams(w, p)
  }

  /** Prefix units at `1..p`, the parameters from `p` on. */
  ghost predicate PrefixThenParams(w: Text, p: nat)
    requires 1 <= p <= |w|
  {
    (forall j | 1 <= j < p :: IsPrefixUnit(w[j])) && ParamsWord(w[p..])
  }

  /** A slice of a slice is a slice of the whole. */
  lemma SliceOfSlice(s: Text, a: nat, b: nat, c: nat, d: nat)
    requires a <= b <= |s| && c <= d <= b - a
    ensures s[a..b][c..d] == s[a + c..a + d]
  {
    assert forall j | 0 <= j < d - c :: s[a..b][c..d][j] == s[a + c + j];
  }

  // Soundness

  /** `;`, `m` digits and a tail make a tail. */
  lemma TailIteration(s: Text, a: nat, m: nat, b: nat)
    requires a + 1 + m <= b <= |s| && m <= 4 && s[a] == SEMICOLON
    requires forall j | a + 1 <= j < a + 1 + m :: IsDigit(s[j])
    requires TailWord(s[a + 1 + m..b])
    ensures TailWord(s[a..b])
  {
    var t := s[a..b];
    SliceOfSlice(s, a, b, 1, 1 + m);
    SliceOfSlice(s, a, b, 1 + m, |t|);
    assert t[1 + m..] == t[1 + m..|t|];
    assert AllDigits(t[1..1 + m]);
    assert TailAfterDigits(t, m);
  }

  lemma {:induction false} ParamTailSound(s: Text, q: nat)
    requires q <= |s| && MatchParamTail(s, q).Some?
    ensures var e := MatchParamTail(s, q).value;
      IsFinal(s[e - 1]) && TailWord(s[q..e - 1])
    decreases |s| - q, 5
  {
    if q < |s| && s[q] == SEMICOLON && TryTailDigits(s, q + 1, DigitRun(s, q + 1, 4)).Some? {
      DigitRunSpan(s, q + 1, 4);
      TryTailDigitsSound(s, q + 1, DigitRun(s, q + 1, 4));
    } else {
      assert s[q..q] == [];
    }
  }

  lemma {:induction false} TryTailDigitsSound(s: Text, r: nat, m: nat)
    requires 1 <= r && r + m <= |s| && m <= 4 && s[r - 1] == SEMICOLON
    requires forall j | r <= j < r + m :: IsDigit(s[j])
    requires TryTailDigits(s, r, m).Some?
    ensures var e := TryTailDigits(s, r, m).value;
      IsFinal(s[e - 1]) && TailWord(s[r - 1..e - 1])
    decreases |s| - r + 1, m
  {
    var res := MatchParamTail(s, r + m);
    if res.Some? {
      ParamTailSound(s, r + m);
      TailIteration(s, r - 1, m, res.value - 1);
    } else {
      TryTailDigitsSound(s, r, m - 1);
    }
  }

  lemma {:induction false} TryLeadDigitsSound(s: Text, p: nat, n: nat)
    requires p + n <= |s| && n <= 4
    requires forall j | p <= j < p + n :: IsDigit(s[j])
    requires TryLeadDigits(s, p, n).Some?
    ensures var e := TryLeadDigits(s, p, n).value;
      IsFinal(s[e - 1]) && GroupWord(s[p..e - 1])
    decreases n
  {
    var res := MatchParamTail(s, p + n);
    if res.Some? {
      ParamTailSound(s, p + n);
      var e := res.value;
      var g := s[p..e - 1];
      assert g[..n] == s[p..p + n];
      assert g[n..] == s[p + n..e - 1];
      assert LeadThenTail(g, n);
    } else {
      TryLeadDigitsSound(s, p, n - 1);
    }
  }

  lemma ParamsSound(s: Text, p: nat)
    requires p <= |s| && MatchParams(s, p).Some?
    ensures ParamsWord(s[p..MatchParams(s, p).value])
  {
    var e := MatchParams(s, p).value;
    var v := s[p..e];
    assert v[|v| - 1] == s[e - 1];
    if TryLeadDigits(s, p, DigitRun(s, p, 4)).Some? {
      DigitRunSpan(s, p, 4);
      TryLeadDigitsSound(s, p, DigitRun(s, p, 4));
      assert v[..|v| - 1] == s[p..e - 1];
    }
  }

  /** An introducer, `k` prefix units and parameters make a word. */
  lemma WordOfParts(s: Text, i: nat, k: nat, e: nat)
    requires i + 1 + k < e <= |s| && IsIntro(s[i])
    requires forall j | i + 1 <= j < i + 1 + k :: IsPrefixUnit(s[j])
    requires ParamsWord(s[i + 1 + k..e])
    ensures PatternWord(s[i..e])
  {
    var w := s[i..e];
    assert w[1 + k..] == s[i + 1 + k..e];
    assert forall j | 1 <= j < 1 + k :: w[j] == s[i + j];
    assert PrefixThenParams(w, 1 + k);
  }

  /** Every match the matcher reports spells a word of the pattern. */
  lemma MatchAtSound(s: Text, i: nat)
    requires i <= |s|
    ensures MatchAt(s, i).Some? ==> PatternWord(s[i..MatchAt(s, i).value])
  {
    if MatchAt(s, i).Some? {
      MatchAtAfterPrefix(s, i);
      var k := PrefixRun(s, i + 1);
      PrefixRunSpan(s, i + 1);
      ParamsSound(s, i + 1 + k);
      WordOfParts(s, i, k, MatchAt(s, i).value);
    }
  }

  // Completeness

  lemma {:induction false} DigitRunAtLeast(s: Text, p: nat, max: nat, k: nat)
    requires p + k <= |s| && k <= max
    requires forall j | p <= j < p + k :: IsDigit(s[j])
    ensures DigitRun(s, p, max) >= k
    decreases k
  {
    if k > 0 {
      DigitRunAtLeast(s, p + 1, max - 1, k - 1);
    }
  }

  lemma {:induction false} TryTailDigitsComplete(s: Text, r: nat, m: nat, m': nat)
    requires 1 <= r && r + m <= |s| && m <= 4 && m' <= m
    requires MatchParamTail(s, r + m').Some?
    ensures TryTailDigits(s, r, m).Some?
    decreases m
  {
    if MatchParamTail(s, r + m).None? {
      TryTailDigitsComplete(s, r, m - 1, m');
    }
  }

  /** The first iteration of a non-empty tail, and the number of its
      digits. */
  lemma TailWordUnfold(s: Text, q: nat, f: nat) returns (m: nat)
    requires q < f <= |s| && TailWord(s[q..f])
    ensures m <= 4 && q + 1 + m <= f && s[q] == SEMICOLON
    ensures forall j | q + 1 <= j < q + 1 + m :: IsDigit(s[j])
    ensures TailWord(s[q + 1 + m..f])
  {
    var t := s[q..f];
    m :| 0 <= m <= 4 && 1 + m <= |t| && TailAfterDigits(t, m);
    SliceOfSlice(s, q, f, 1, 1 + m);
    SliceOfSlice(s, q, f, 1 + m, |t|);
    assert t[1 + m..] == t[1 + m..|t|];
    assert forall j | q + 1 <= j < q + 1 + m :: s[j] == t[1..1 + m][j - q - 1];
  }

  /** The leading digits of a group, and how many there are. */
  lemma GroupWordUnfold(s: Text, p: nat, f: nat) returns (n: nat)
    requires p <= f <= |s| && GroupWord(s[p..f])
    ensures 1 <= n <= 4 && p + n <= f
    ensures forall j | p <= j < p + n :: IsDigit(s[j])
    ensures TailWord(s[p + n..f])
  {
    var g := s[p..f];
    n :| 1 <= n <= 4 && n <= |g| && LeadThenTail(g, n);
    SliceOfSlice(s, p, f, 0, n);
    SliceOfSlice(s, p, f, n, |g|);
    assert g[..n] == g[0..n];
    assert g[n..] == g[n..|g|];
    assert forall j | p <= j < p + n :: s[j] == g[..n][j - p];
  }

  lemma {:induction false} ParamTailComplete(s: Text, q: nat, f: nat)
    requires q <= f < |s| && IsFinal(s[f]) && TailWord(s[q..f])
    ensures MatchParamTail(s, q).Some?
    decreases f - q
  {
    if q < f {
      var m := TailWordUnfold(s, q, f);
      ParamTailComplete(s, q + 1 + m, f);
      DigitRunAtLeast(s, q + 1, 4, m);
      TryTailDigitsComplete(s, q + 1, DigitRun(s, q + 1, 4), m);
    }
  }

  lemma {:induction false} TryLeadDigitsComplete(s: Text, p: nat, n: nat, n': nat)
    requires p + n <= |s| && 1 <= n' <= n
    requires MatchParamTail(s, p + n').Some?
    ensures TryLeadDigits(s, p, n).Some?
    decreases n
  {
    if MatchParamTail(s, p + n).None? {
      TryLeadDigitsComplete(s, p, n - 1, n');
    }
  }

  lemma ParamsComplete(s: Text, p: nat, e: nat)
    requires p < e <= |s| && ParamsWord(s[p..e])
    ensures MatchParams(s, p).Some?
  {
    var v := s[p..e];
    assert v[|v| - 1] == s[e - 1];
    if |v| > 1 {
      assert v[..|v| - 1] == s[p..e - 1];
      var n := GroupWordUnfold(s, p, e - 1);
      ParamTailComplete(s, p + n, e - 1);
      DigitRunAtLeast(s, p, 4, n);
      TryLeadDigitsComplete(s, p, DigitRun(s, p, 4), n);
    }
  }

  /** The parameters of a word start with a digit or a final unit, and
      neither is a prefix unit. */
  lemma ParamsStart(v: Text)
    requires ParamsWord(v)
    ensures !IsPrefixUnit(v[0])
  {
    if |v| > 1 {
      var g := v[..|v| - 1];
      var n :| 1 <= n <= 4 && n <= |g| && LeadThenTail(g, n);
      assert IsDigit(g[..n][0]);
    }
  }

  /** The greedy prefix run of a word's occurrence is exactly its prefix
      units: the parameters after them cannot start with a prefix unit. */
  lemma PrefixRunOfWord(s: Text, i: nat, e: nat, p: nat)
    requires i < e <= |s| && 1 <= p < e - i && PrefixThenParams(s[i..e], p)
    ensures PrefixRun(s, i + 1) == p - 1
  {
    var w := s[i..e];
    assert w[p..] == s[i + p..e];
    ParamsStart(w[p..]);
    assert forall j | 1 <= j < p :: s[i + j] == w[j];
    PrefixRunSpan(s, i + 1);
  }

  /** Wherever a word of the pattern starts, the matcher reports a match
      (possibly a different word, the one the engine's priorities pick). */
  lemma MatchAtComplete(s: Text, i: nat, e: nat)
    requires i < e <= |s| && PatternWord(s[i..e])
    ensures MatchAt(s, i).Some?
  {
    var w := s[i..e];
    var p :| 1 <= p < |w| && PrefixThenParams(w, p);
    PrefixRunOfWord(s, i, e, p);
    assert w[p..] == s[i + p..e];
    MatchAtAfterPrefix(s, i);
    ParamsComplete(s, i + p, e);
  }
}
