/** The colour-stripping replacement applied to every line before it goes to
    the log file (index.js:102), with the empty string as replacement and the
    pattern

      /[\u001b\u009b][[()#;?]*(?:[0-9]{1,4}(?:;[0-9]{0,4})*)?[0-9A-ORZcf-nqry=><]/g

    The pattern loosely follows the control sequences of ECMA-48 section 5.4
    but is a heuristic; what is modelled here is the pattern itself, matched
    with the priorities of a backtracking regular-expression engine, over
    UTF-16 code units (the pattern has no `u` flag).

    Matching functions take the whole string `s` and a position, and return
    the position just past the match, or None. Each choice point of the
    pattern tries its alternatives in the engine's order (greedy: longest
    first) and the first alternative whose continuation succeeds wins. */
module AnsiStrip {
  import opened JsText

  const ESC: CodeUnit := 0x1B
  const CSI: CodeUnit := 0x9B
  const LBRACKET: CodeUnit := 0x5B
  const SEMICOLON: CodeUnit := 0x3B
  const LOWER_M: CodeUnit := 0x6D

  /** `[\u001b\u009b]`: the unit that introduces a sequence. */
  predicate IsIntro(c: CodeUnit) {
    c == ESC || c == CSI
  }

  /** `[[()#;?]` */
  predicate IsPrefixUnit(c: CodeUnit) {
    c == LBRACKET || c == 0x28 || c == 0x29 || c == 0x23 || c == SEMICOLON || c == 0x3F
  }

  /** `[0-9A-ORZcf-nqry=><]`: the unit that ends a sequence. */
  predicate IsFinal(c: CodeUnit) {
    IsDigit(c)
    || (0x41 <= c <= 0x4F)   // A-O
    || c == 0x52 || c == 0x5A  // R Z
    || c == 0x63             // c
    || (0x66 <= c <= 0x6E)   // f-n
    || c == 0x71 || c == 0x72 || c == 0x79  // q r y
    || c == 0x3D || c == 0x3E || c == 0x3C  // = > <
  }

  /** A unit no part of the pattern after the introducer accepts: the
      matcher stops in front of it exactly as it stops at the end of the
      string. Both introducers and the line feed are barriers. */
  predicate IsBarrier(c: CodeUnit) {
    !IsPrefixUnit(c) && !IsDigit(c) && !IsFinal(c)
  }

  /** Length of the run of `[[()#;?]` units starting at `p`. */
  function PrefixRun(s: Text, p: nat): (k: nat)
    requires p <= |s|
    ensures p + k <= |s|
    decreases |s| - p
  {
    if p < |s| && IsPrefixUnit(s[p]) then 1 + PrefixRun(s, p + 1) else 0
  }

  /** Length of the run of at most `max` digits starting at `p`. */
  function DigitRun(s: Text, p: nat, max: nat): (k: nat)
    requires p <= |s|
    ensures k <= max && p + k <= |s|
    decreases max
  {
    if max > 0 && p < |s| && IsDigit(s[p]) then 1 + DigitRun(s, p + 1, max - 1) else 0
  }

  /** The final class `[0-9A-ORZcf-nqry=><]` at `q`. */
  function MatchFinal(s: Text, q: nat): (r: Option<nat>)
    ensures r.Some? <==> q < |s| && IsFinal(s[q])
    ensures r.Some? ==> r.value == q + 1
  {
    if q < |s| && IsFinal(s[q]) then Some(q + 1) else None
  }

  /** `(?:;[0-9]{0,4})*` (greedy) followed by the final class, at `q`:
      first one more iteration, and only if no way through it succeeds,
      none. */
  function MatchParamTail(s: Text, q: nat): (r: Option<nat>)
    requires q <= |s|
    ensures r.Some? ==> q < r.value <= |s|
    decreases |s| - q, 5
  {
    var another :=
      if q < |s| && s[q] == SEMICOLON then TryTailDigits(s, q + 1, DigitRun(s, q + 1, 4)) else None;
    if another.Some? then another else MatchFinal(s, q)
  }

  /** Inside one iteration of the tail, after its `;` at `r - 1`:
      `[0-9]{0,4}` with `m`, `m - 1`, ..., `0` digits in turn, each followed
      by the rest of the tail. */
  function TryTailDigits(s: Text, r: nat, m: nat): (res: Option<nat>)
    requires 1 <= r && r + m <= |s| && m <= 4
    ensures res.Some? ==> r < res.value <= |s|
    decreases |s| - r + 1, m
  {
    var res := MatchParamTail(s, r + m);
    if res.Some? || m == 0 then res else TryTailDigits(s, r, m - 1)
  }

  /** `[0-9]{1,4}` with `n`, `n - 1`, ..., `1` digits in turn, each followed
      by the tail. */
  function TryLeadDigits(s: Text, p: nat, n: nat): (r: Option<nat>)
    requires p + n <= |s|
    ensures r.Some? ==> p < r.value <= |s|
    decreases n
  {
    if n == 0 then None
    else
      var res := MatchParamTail(s, p + n);
      if res.Some? then res else TryLeadDigits(s, p, n - 1)
  }

  /** `(?:[0-9]{1,4}(?:;[0-9]{0,4})*)?` (greedy) followed by the final
      class, at `p`: first with the group, then without it. */
  function MatchParams(s: Text, p: nat): (r: Option<nat>)
    requires p <= |s|
    ensures r.Some? ==> p < r.value <= |s|
  {
    var withGroup := TryLeadDigits(s, p, DigitRun(s, p, 4));
    if withGroup.Some? then withGroup else MatchFinal(s, p)
  }

  /** `[[()#;?]*` with `k`, `k - 1`, ..., `0` units in turn, each followed by
      the rest of the pattern. */
  function TryPrefix(s: Text, p: nat, k: nat): (r: Option<nat>)
    requires p + k <= |s|
    ensures r.Some? ==> p < r.value <= |s|
    decreases k
  {
    var res := MatchParams(s, p + k);
    if res.Some? || k == 0 then res else TryPrefix(s, p, k - 1)
  }

  /** The match the engine reports when it tries the whole pattern at
      position `i`: the position just past it, or None. */
  function MatchAt(s: Text, i: nat): (r: Option<nat>)
    requires i <= |s|
    ensures r.Some? ==> i < |s| && IsIntro(s[i])
    ensures r.Some? ==> i + 2 <= r.value <= |s|
  {
    if i < |s| && IsIntro(s[i]) then TryPrefix(s, i + 1, PrefixRun(s, i + 1)) else None
  }

  /** `s.replace(pattern, '')` with the global flag: the search resumes
      just past each match, and a position where no match starts is kept. */
  function Strip(s: Text): (r: Text)
    ensures |r| <= |s|
    decreases |s|
  {
    if s == [] then []
    else match MatchAt(s, 0)
      case Some(e) => Strip(s[e..])
      case None => [s[0]] + Strip(s[1..])
  }
}
