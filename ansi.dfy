/**
 * Output sanitising shared by the subprocess backend (src/ai.js:111) and the
 * message handler (src/bot.js:154): every match of the escape-sequence pattern
 *
 *   [ESC CSI] [[()#;?]* (?: [0-9]{1,4} (?: ; [0-9]{0,4} )* )? [0-9A-ORZcf-nqry=><]
 *
 * is removed (global replace), then the result is trimmed of JavaScript
 * white space.
 *
 * The matcher is written by hand. It returns the end of the match the
 * backtracking engine reports first at a position; how that choice follows
 * from the engine's priority order is explained at each branch.
 */
module Ansi {
  import opened Wrappers

  const Esc: char := '\U{1B}'
  const Csi: char := '\U{9B}'

  /** `[\u001b\u009b]` */
  predicate IsIntroducer(c: char) {
    c == Esc || c == Csi
  }

  /** `[[()#;?]` */
  predicate IsPrefixChar(c: char) {
    c == '[' || c == '(' || c == ')' || c == '#' || c == ';' || c == '?'
  }

  predicate IsDigit(c: char) {
    '0' <= c <= '9'
  }

  /** `[0-9A-ORZcf-nqry=><]` */
  predicate IsFinal(c: char) {
    IsDigit(c) || 'A' <= c <= 'O' || c == 'R' || c == 'Z' || c == 'c'
    || 'f' <= c <= 'n' || c == 'q' || c == 'r' || c == 'y'
    || c == '=' || c == '>' || c == '<'
  }

  // ---------------------------------------------------------------------------
  // The language of the pattern, stated declaratively.

  ghost predicate AllDigits(w: string) {
    forall k :: 0 <= k < |w| ==> IsDigit(w[k])
  }

  ghost predicate AllPrefixChars(w: string) {
    forall k :: 0 <= k < |w| ==> IsPrefixChar(w[k])
  }

  /** `(?:;[0-9]{0,4})*` */
  ghost predicate InParamTail(w: string)
    decreases |w|, 1
  {
    w == [] || exists j :: 0 <= j <= 4 && TailIteration(w, j)
  }

  /** One iteration `;[0-9]{j}` of the star, followed by the rest of the star. */
  ghost predicate TailIteration(w: string, j: nat)
    decreases |w|, 0
  {
    1 + j <= |w| && w[0] == ';' && AllDigits(w[1..1 + j]) && InParamTail(w[1 + j..])
  }

  /** `(?:[0-9]{1,4}(?:;[0-9]{0,4})*)?` */
  ghost predicate InParams(w: string) {
    w == [] ||
    exists k :: 1 <= k <= 4 && k <= |w| && AllDigits(w[..k]) && InParamTail(w[k..])
  }

  /** `w` is one whole match of the pattern. */
  ghost predicate IsEscapeSequence(w: string) {
    |w| >= 2 && IsIntroducer(w[0]) && IsFinal(w[|w| - 1]) &&
    exists a :: 1 <= a <= |w| - 1 && AllPrefixChars(w[1..a]) && InParams(w[a..|w| - 1])
  }

  // ---------------------------------------------------------------------------
  // The matcher.

  /** Length of the run of `[[()#;?]` characters starting at `i`. */
  function PrefixRun(s: string, i: nat): (n: nat)
    requires i <= |s|
    ensures i + n <= |s|
    ensures forall k :: i <= k < i + n ==> IsPrefixChar(s[k])
    ensures i + n == |s| || !IsPrefixChar(s[i + n])
    decreases |s| - i
  {
    if i < |s| && IsPrefixChar(s[i]) then 1 + PrefixRun(s, i + 1) else 0
  }

  /** Length of the run of digits starting at `i`. */
  function DigitRun(s: string, i: nat): (n: nat)
    requires i <= |s|
    ensures i + n <= |s|
    ensures forall k :: i <= k < i + n ==> IsDigit(s[k])
    ensures i + n == |s| || !IsDigit(s[i + n])
    decreases |s| - i
  {
    if i < |s| && IsDigit(s[i]) then 1 + DigitRun(s, i + 1) else 0
  }

  /**
   * End of the first match of `(?:;[0-9]{0,4})*[final]` at `r`, if any.
   * The star is greedy: an iteration `;` followed by m digits is tried first
   * with min(4, m) digits. With m >= 5 the fifth digit is the final character.
   * With 1 <= m <= 4 the rest is tried after all m digits, and if that fails
   * the last digit is taken as the final character. With m == 0 the
   * iteration fails unless the rest matches, and `;` itself is not final.
   */
  function ParamTail(s: string, r: nat): (e: Option<nat>)
    requires r <= |s|
    ensures e.Some? ==> r < e.value <= |s|
    decreases |s| - r
  {
    if r < |s| && s[r] == ';' then
      var m := DigitRun(s, r + 1);
      if m >= 5 then Some(r + 6)
      else
        match ParamTail(s, r + 1 + m)
        case Some(e) => Some(e)
        case None => if m >= 1 then Some(r + 1 + m) else None
    else if r < |s| && IsFinal(s[r]) then Some(r + 1)
    else None
  }

  /**
   * End of the match the regular expression reports at position `i`, if any.
   * The prefix run is taken whole: giving back a prefix character never helps,
   * since no prefix character is a digit or a final character. Then, with n
   * digits: n >= 5 matches four parameter digits and the fifth as final;
   * 1 <= n <= 4 tries the tail after all n digits and otherwise takes the last
   * digit as final; n == 0 needs a final character right there.
   */
  function MatchAt(s: string, i: nat): (e: Option<nat>)
    requires i <= |s|
    ensures e.Some? ==> i + 2 <= e.value <= |s|
    ensures e.Some? ==> IsIntroducer(s[i])
  {
    if i < |s| && IsIntroducer(s[i]) then
      var p := i + 1 + PrefixRun(s, i + 1);
      var n := DigitRun(s, p);
      if n >= 5 then Some(p + 5)
      else if n >= 1 then
        match ParamTail(s, p + n)
        case Some(e) => Some(e)
        case None => Some(p + n)
      else if p < |s| && IsFinal(s[p]) then Some(p + 1)
      else None
    else None
  }

  /**
   * The global replace, from position `i` on: never longer than what it
   * scans, and a character that is not ESC or CSI is always kept.
   */
  function StripFrom(s: string, i: nat): (r: string)
    requires i <= |s|
    ensures |r| <= |s| - i
    decreases |s| - i
  {
    if i == |s| then []
    else
      match MatchAt(s, i)
      case Some(e) => StripFrom(s, e)
      case None => [s[i]] + StripFrom(s, i + 1)
  }

  /** `s.replace(/.../g, '')` with the escape-sequence pattern. */
  function StripAnsi(s: string): (r: string)
    ensures |r| <= |s|
    ensures s != [] && !IsIntroducer(s[0]) ==> |r| >= 1 && r[0] == s[0]
  {
    if s != [] && !IsIntroducer(s[0]) then
      StripKeepsPlainHead(s, 0);
      StripFrom(s, 0)
    else
      StripFrom(s, 0)
  }

  /** A character that starts no escape sequence is copied to the front of the result. */
  lemma StripKeepsPlainHead(s: string, i: nat)
    requires i < |s| && !IsIntroducer(s[i])
    ensures StripFrom(s, i) == [s[i]] + StripFrom(s, i + 1)
  {
    assert MatchAt(s, i) == None;
  }

  // ---------------------------------------------------------------------------
  // JavaScript `String.prototype.trim`.

  /** WhiteSpace and LineTerminator code points as ECMAScript defines them. */
  predicate IsJsSpace(c: char) {
    c == '\t' || c == '\n' || c == '\U{B}' || c == '\U{C}' || c == '\r' || c == ' '
    || c == '\U{A0}' || c == '\U{1680}' || '\U{2000}' <= c <= '\U{200A}'
    || c == '\U{2028}' || c == '\U{2029}' || c == '\U{202F}' || c == '\U{205F}'
    || c == '\U{3000}' || c == '\U{FEFF}'
  }

  /** Index of the first character at or after `i` that is not white space, or `|s|`. */
  function SkipSpace(s: string, i: nat): (a: nat)
    requires i <= |s|
    ensures i <= a <= |s|
    ensures forall k :: i <= k < a ==> IsJsSpace(s[k])
    ensures a == |s| || !IsJsSpace(s[a])
    decreases |s| - i
  {
    if i < |s| && IsJsSpace(s[i]) then SkipSpace(s, i + 1) else i
  }

  /** Walking back from `j`, but not past `lo`: the end of the last character that is not white space. */
  function SkipSpaceBack(s: string, lo: nat, j: nat): (b: nat)
    requires lo <= j <= |s|
    ensures lo <= b <= j
    ensures forall k :: b <= k < j ==> IsJsSpace(s[k])
    ensures b == lo || !IsJsSpace(s[b - 1])
    decreases j
  {
    if lo < j && IsJsSpace(s[j - 1]) then SkipSpaceBack(s, lo, j - 1) else j
  }

  /** `s.trim()`: the slice of `s` left after dropping leading and trailing white space. */
  function Trim(s: string): (r: string)
    ensures exists a, b :: 0 <= a <= b <= |s| && r == s[a..b] &&
                           (forall k :: 0 <= k < a ==> IsJsSpace(s[k])) &&
                           (forall k :: b <= k < |s| ==> IsJsSpace(s[k]))
    ensures r == [] || (!IsJsSpace(r[0]) && !IsJsSpace(r[|r| - 1]))
    ensures |r| <= |s|
  {
    var a := SkipSpace(s, 0);
    var b := SkipSpaceBack(s, a, |s|);
    s[a..b]
  }

  /** What both call sites compute: strip the escape sequences, then trim. */
  function Clean(s: string): (r: string)
    ensures |r| <= |s|
    ensures r == [] || (!IsJsSpace(r[0]) && !IsJsSpace(r[|r| - 1]))
  {
    Trim(StripAnsi(s))
  }

  // ---------------------------------------------------------------------------
  // Properties.

  ghost predicate NoIntroducer(s: string) {
    forall k :: 0 <= k < |s| ==> !IsIntroducer(s[k])
  }

  lemma PrefixCharIsNotFinal(c: char)
    requires IsPrefixChar(c)
    ensures !IsFinal(c) && !IsDigit(c)
  {
  }

  lemma AllDigitsSlice(s: string, lo: nat, hi: nat)
    requires lo <= hi <= |s|
    requires forall k :: lo <= k < hi ==> IsDigit(s[k])
    ensures AllDigits(s[lo..hi])
  {
  }

  /** One `;` with j <= 4 digits in front of a parameter tail is again a parameter tail. */
  lemma TailIterationIntro(w: string, j: nat)
    requires j <= 4 && 1 + j <= |w| && w[0] == ';'
    requires AllDigits(w[1..1 + j]) && InParamTail(w[1 + j..])
    ensures InParamTail(w)
  {
    assert TailIteration(w, j);
  }

  /** A slice of a slice is a slice. */
  lemma SliceOfSlice(s: string, lo: nat, hi: nat, a: nat, b: nat)
    requires lo <= hi <= |s| && a <= b <= hi - lo
    ensures s[lo..hi][a..b] == s[lo + a..lo + b]
  {
    assert forall k :: 0 <= k < b - a ==> s[lo..hi][a..b][k] == s[lo + a + k];
  }

  /** Every match ParamTail reports is a parameter tail followed by a final character. */
  lemma {:induction false} ParamTailSound(s: string, r: nat, e: nat)
    requires r <= |s|
    requires ParamTail(s, r) == Some(e)
    ensures r < e <= |s| && InParamTail(s[r..e - 1]) && IsFinal(s[e - 1])
    decreases |s| - r
  {
    if r < |s| && s[r] == ';' {
      var m := DigitRun(s, r + 1);
      var j: nat;
      if m >= 5 {
        j := 4;
        assert e == r + 6;
        assert s[r + 1 + j..e - 1] == [];
      } else if ParamTail(s, r + 1 + m).Some? {
        j := m;
        ParamTailSound(s, r + 1 + m, e);
      } else {
        j := m - 1;
        assert e == r + 1 + m;
        assert s[r + 1 + j..e - 1] == [];
      }
      IterationSound(s, r, j, e);
    } else {
      assert s[r..e - 1] == [];
    }
  }

  /** The slice from `r` to `e - 1` is `;`, j digits and a parameter tail. */
  lemma IterationSound(s: string, r: nat, j: nat, e: nat)
    requires r + 1 + j < e <= |s| && j <= 4 && s[r] == ';'
    requires forall k :: r + 1 <= k < r + 1 + j ==> IsDigit(s[k])
    requires InParamTail(s[r + 1 + j..e - 1])
    ensures InParamTail(s[r..e - 1])
  {
    var w := s[r..e - 1];
    SliceOfSlice(s, r, e - 1, 1, 1 + j);
    SliceOfSlice(s, r, e - 1, 1 + j, |w|);
    AllDigitsSlice(s, r + 1, r + 1 + j);
    TailIterationIntro(w, j);
  }

  /** The shape of a whole match, assembled from its parts. */
  lemma EscapeSequenceOf(s: string, i: nat, p: nat, e: nat)
    requires i < p < e <= |s|
    requires IsIntroducer(s[i]) && IsFinal(s[e - 1])
    requires forall k :: i + 1 <= k < p ==> IsPrefixChar(s[k])
    requires InParams(s[p..e - 1])
    ensures IsEscapeSequence(s[i..e])
  {
    var w := s[i..e];
    SliceOfSlice(s, i, e, 1, p - i);
    SliceOfSlice(s, i, e, p - i, |w| - 1);
    assert 1 <= p - i <= |w| - 1 && AllPrefixChars(w[1..p - i]) && InParams(w[p - i..|w| - 1]);
  }

  /** k <= 4 digits in front of a parameter tail form the optional parameter group. */
  lemma ParamsSound(s: string, p: nat, k: nat, f: nat)
    requires p + k <= f <= |s| && 1 <= k <= 4
    requires forall x :: p <= x < p + k ==> IsDigit(s[x])
    requires InParamTail(s[p + k..f])
    ensures InParams(s[p..f])
  {
    var w := s[p..f];
    SliceOfSlice(s, p, f, 0, k);
    SliceOfSlice(s, p, f, k, |w|);
    AllDigitsSlice(s, p, p + k);
    assert w[..k] == w[0..k];
  }

  /** A match with a parameter group of k digits, a parameter tail and a final character. */
  lemma SoundWithParams(s: string, i: nat, p: nat, k: nat, e: nat)
    requires i < p && p + k < e <= |s| && 1 <= k <= 4
    requires IsIntroducer(s[i]) && IsFinal(s[e - 1])
    requires forall x :: i + 1 <= x < p ==> IsPrefixChar(s[x])
    requires forall x :: p <= x < p + k ==> IsDigit(s[x])
    requires InParamTail(s[p + k..e - 1])
    ensures IsEscapeSequence(s[i..e])
  {
    ParamsSound(s, p, k, e - 1);
    EscapeSequenceOf(s, i, p, e);
  }

  /** A match without parameters: the final character right after the prefix run. */
  lemma SoundWithoutParams(s: string, i: nat, p: nat)
    requires i < p < |s|
    requires IsIntroducer(s[i]) && IsFinal(s[p])
    requires forall x :: i + 1 <= x < p ==> IsPrefixChar(s[x])
    ensures IsEscapeSequence(s[i..p + 1])
  {
    assert s[p..p] == [];
    EscapeSequenceOf(s, i, p, p + 1);
  }

  /** Soundness of the matcher: what it removes is a match of the pattern. */
  lemma MatchAtSound(s: string, i: nat)
    requires i <= |s|
    requires MatchAt(s, i).Some?
    ensures IsEscapeSequence(s[i..MatchAt(s, i).value])
  {
    MatchAtSoundAt(s, i, MatchAt(s, i).value);
  }

  lemma MatchAtSoundAt(s: string, i: nat, e: nat)
    requires i <= |s|
    requires MatchAt(s, i) == Some(e)
    ensures IsEscapeSequence(s[i..e])
  {
    var p := i + 1 + PrefixRun(s, i + 1);
    var n := DigitRun(s, p);
    if n >= 1 && ParamTail(s, p + n).Some? && n < 5 {
      SoundThroughTail(s, i, p, n, e);
    } else if n >= 1 {
      SoundThroughDigits(s, i, p, n, e);
    } else {
      assert e == p + 1;
      SoundWithoutParams(s, i, p);
    }
  }

  /** The case where the parameter tail after all the digits decides the match. */
  lemma SoundThroughTail(s: string, i: nat, p: nat, n: nat, e: nat)
    requires i < |s| && IsIntroducer(s[i])
    requires p == i + 1 + PrefixRun(s, i + 1) && n == DigitRun(s, p) && 1 <= n <= 4
    requires ParamTail(s, p + n) == Some(e)
    ensures IsEscapeSequence(s[i..e])
  {
    ParamTailSound(s, p + n, e);
    SoundWithParams(s, i, p, n, e);
  }

  /** The cases where a digit itself is the final character: the fifth one, or the last of a run without a tail. */
  lemma SoundThroughDigits(s: string, i: nat, p: nat, n: nat, e: nat)
    requires i < |s| && IsIntroducer(s[i])
    requires p == i + 1 + PrefixRun(s, i + 1) && n == DigitRun(s, p) && n >= 1
    requires e == if n >= 5 then p + 5 else p + n
    ensures IsEscapeSequence(s[i..e])
  {
    if n >= 5 {
      assert s[p + 4..p + 4] == [];
      SoundWithParams(s, i, p, 4, e);
    } else if n >= 2 {
      assert s[p + n - 1..p + n - 1] == [];
      SoundWithParams(s, i, p, n - 1, e);
    } else {
      SoundWithoutParams(s, i, p);
    }
  }

  /** A maximal run of prefix characters of length `len` is what PrefixRun measures. */
  lemma {:induction false} PrefixRunExact(s: string, j: nat, len: nat)
    requires j + len < |s|
    requires forall k :: j <= k < j + len ==> IsPrefixChar(s[k])
    requires !IsPrefixChar(s[j + len])
    ensures PrefixRun(s, j) == len
    decreases len
  {
    if len > 0 {
      PrefixRunExact(s, j + 1, len - 1);
    }
  }

  /** Completeness of the matcher: if the pattern matches at `i`, MatchAt reports a match (a corollary of MatchAtLongest). */
  lemma MatchAtComplete(s: string, i: nat, e: nat)
    requires i <= e <= |s|
    requires IsEscapeSequence(s[i..e])
    ensures MatchAt(s, i).Some?
  {
    MatchAtLongest(s, i, e);
  }

  /** A non-empty parameter tail opens with `;`. */
  lemma TailOpensWithSemicolon(s: string, lo: nat, hi: nat)
    requires lo <= hi <= |s|
    requires InParamTail(s[lo..hi])
    ensures hi == lo || s[lo] == ';'
  {
    if hi > lo {
      var w := s[lo..hi];
      var j :| 0 <= j <= 4 && TailIteration(w, j);
      assert w[0] == s[lo];
    }
  }

  /** A run of j digits at `lo` is covered by DigitRun. */
  lemma {:induction false} DigitRunAtLeast(s: string, lo: nat, j: nat)
    requires lo + j <= |s|
    requires forall x :: lo <= x < lo + j ==> IsDigit(s[x])
    ensures DigitRun(s, lo) >= j
    decreases j
  {
    if j > 0 {
      DigitRunAtLeast(s, lo + 1, j - 1);
    }
  }

  /** At a `;` followed by m digits: a digit ends a match no earlier than the fifth or the last one, and a matching rest is taken. */
  lemma ParamTailAtSemicolon(s: string, r: nat)
    requires r < |s| && s[r] == ';'
    ensures var m := DigitRun(s, r + 1);
            (m >= 1 ==> ParamTail(s, r).Some? && ParamTail(s, r).value >= r + 1 + (if m >= 5 then 5 else m)) &&
            (m <= 4 && ParamTail(s, r + 1 + m).Some? ==> ParamTail(s, r) == ParamTail(s, r + 1 + m))
  {
  }

  /**
   * ParamTail reports the longest match of `(?:;[0-9]{0,4})*[final]` at `r`:
   * wherever such a match ends, ParamTail's match ends there or later.
   */
  lemma {:induction false} ParamTailLongest(s: string, r: nat, f: nat)
    requires r < f <= |s|
    requires InParamTail(s[r..f - 1]) && IsFinal(s[f - 1])
    ensures ParamTail(s, r).Some? && f <= ParamTail(s, r).value
    decreases |s| - r
  {
    if f == r + 1 {
      assert ParamTail(s, r) == Some(r + 1) by {
        if s[r] == ';' {
          ParamTailAtSemicolon(s, r);
        }
      }
    } else {
      var j := TailFirstGroup(s, r, f);
      var m := DigitRun(s, r + 1);
      ParamTailAtSemicolon(s, r);
      if j < m {
        // another digit follows the iteration, so the star stops and that digit is final
        assert IsDigit(s[r + 1 + j]);
        GroupStopsEarly(s, r + 1, j, f);
      } else {
        ParamTailLongest(s, r + 1 + m, f);
      }
    }
  }

  /** A non-empty tail opens with `;` and a group of j <= 4 digits, all within the digit run there, and a tail follows. */
  lemma TailFirstGroup(s: string, r: nat, f: nat) returns (j: nat)
    requires r + 1 < f <= |s|
    requires InParamTail(s[r..f - 1])
    ensures s[r] == ';' && j <= 4 && r + 1 + j <= f - 1
    ensures DigitRun(s, r + 1) >= j
    ensures InParamTail(s[r + 1 + j..f - 1])
  {
    var w := s[r..f - 1];
    assert InParamTail(w);
    j :| 0 <= j <= 4 && TailIteration(w, j);
    assert s[r] == w[0];
    forall x | r + 1 <= x < r + 1 + j
      ensures IsDigit(s[x])
    {
      assert s[x] == w[1..1 + j][x - r - 1];
    }
    DigitRunAtLeast(s, r + 1, j);
    SliceOfSlice(s, r, f - 1, 1 + j, |w|);
  }

  /**
   * MatchAt reports the longest match of the pattern at `i`: wherever a match
   * ends, MatchAt's match ends there or later. With MatchAtSound, what the
   * replace removes is exactly the longest match.
   */
  lemma MatchAtLongest(s: string, i: nat, e: nat)
    requires i <= e <= |s|
    requires IsEscapeSequence(s[i..e])
    ensures MatchAt(s, i).Some? && e <= MatchAt(s, i).value
  {
    var p := PrefixSplit(s, i, e);
    LongestAfterPrefix(s, i, p, e);
  }

  /** Any match's prefix part is the whole prefix run, so its parameters start where MatchAt looks for them. */
  lemma PrefixSplit(s: string, i: nat, e: nat) returns (p: nat)
    requires i <= e <= |s|
    requires IsEscapeSequence(s[i..e])
    ensures i < |s| && IsIntroducer(s[i]) && IsFinal(s[e - 1])
    ensures p == i + 1 + PrefixRun(s, i + 1) && p < e
    ensures InParams(s[p..e - 1])
  {
    var w := s[i..e];
    var a :| 1 <= a <= |w| - 1 && AllPrefixChars(w[1..a]) && InParams(w[a..|w| - 1]);
    forall k | i + 1 <= k < i + a
      ensures IsPrefixChar(s[k])
    {
      assert s[k] == w[1..a][k - i - 1];
    }
    SliceOfSlice(s, i, e, a, |w| - 1);
    assert IsFinal(s[e - 1]) by { assert s[e - 1] == w[|w| - 1]; }
    NotPrefixAfterPrefix(s, i + a, e);
    PrefixRunExact(s, i + 1, a - 1);
    assert s[i] == w[0];
    p := i + a;
  }

  /** Parameters and a final character open with a digit or the final character, never a prefix character. */
  lemma NotPrefixAfterPrefix(s: string, q: nat, e: nat)
    requires q < e <= |s|
    requires InParams(s[q..e - 1]) && IsFinal(s[e - 1])
    ensures !IsPrefixChar(s[q])
  {
    var params := s[q..e - 1];
    if params != [] {
      var k :| 1 <= k <= 4 && k <= |params| && AllDigits(params[..k]) && InParamTail(params[k..]);
      assert params[..k][0] == s[q];
    }
    if IsPrefixChar(s[q]) {
      PrefixCharIsNotFinal(s[q]);
    }
  }

  /** What MatchAt gives for a digit run of length n after the prefix run. */
  lemma MatchAtAfterDigits(s: string, i: nat)
    requires i < |s| && IsIntroducer(s[i])
    ensures var p := i + 1 + PrefixRun(s, i + 1); var n := DigitRun(s, p);
            n >= 1 ==> MatchAt(s, i).Some? && MatchAt(s, i).value >= p + (if n >= 5 then 5 else n)
    ensures var p := i + 1 + PrefixRun(s, i + 1); var n := DigitRun(s, p);
            1 <= n <= 4 && ParamTail(s, p + n).Some? ==> MatchAt(s, i) == ParamTail(s, p + n)
    ensures var p := i + 1 + PrefixRun(s, i + 1); var n := DigitRun(s, p);
            n == 0 && p < |s| && IsFinal(s[p]) ==> MatchAt(s, i) == Some(p + 1)
  {
  }

  /**
   * Parameters followed by a final character, read from `p` on, end no later
   * than the greedy reading of the digit run at `p` and the tail after it.
   */
  lemma ParamsGreedy(s: string, p: nat, e: nat)
    requires p < e <= |s|
    requires InParams(s[p..e - 1]) && IsFinal(s[e - 1])
    ensures var n := DigitRun(s, p);
            (n == 0 ==> e == p + 1) &&
            (n >= 1 ==> e <= p + (if n >= 5 then 5 else n) ||
                        (n <= 4 && ParamTail(s, p + n).Some? && e <= ParamTail(s, p + n).value))
  {
    var params := s[p..e - 1];
    var n := DigitRun(s, p);
    if params == [] {
      assert e == p + 1;
    } else {
      var k :| 1 <= k <= 4 && k <= |params| && AllDigits(params[..k]) && InParamTail(params[k..]);
      forall x | p <= x < p + k
        ensures IsDigit(s[x])
      {
        assert s[x] == params[..k][x - p];
      }
      DigitRunAtLeast(s, p, k);
      SliceOfSlice(s, p, e - 1, k, |params|);
      if k < n {
        // a further digit follows the group, so the tail is empty and that digit is final
        assert IsDigit(s[p + k]);
        GroupStopsEarly(s, p, k, e);
      } else {
        ParamTailLongest(s, p + n, e);
      }
    }
  }

  /** When more digits follow a group of k, the tail after the group is empty and the next digit is the final character. */
  lemma GroupStopsEarly(s: string, p: nat, k: nat, e: nat)
    requires p + k < e <= |s|
    requires InParamTail(s[p + k..e - 1]) && IsDigit(s[p + k])
    ensures e == p + k + 1
  {
    TailOpensWithSemicolon(s, p + k, e - 1);
  }

  /** The longest-match argument once the prefix run is fixed: the digit count and the tail are greedy. */
  lemma LongestAfterPrefix(s: string, i: nat, p: nat, e: nat)
    requires i < |s| && IsIntroducer(s[i])
    requires p == i + 1 + PrefixRun(s, i + 1) && p < e <= |s|
    requires InParams(s[p..e - 1]) && IsFinal(s[e - 1])
    ensures MatchAt(s, i).Some? && e <= MatchAt(s, i).value
  {
    ParamsGreedy(s, p, e);
    MatchAtAfterDigits(s, i);
    var n := DigitRun(s, p);
    if n == 0 {
      assert MatchAt(s, i) == Some(p + 1);
    } else if n <= 4 && ParamTail(s, p + n).Some? {
      assert MatchAt(s, i) == ParamTail(s, p + n);
    } else {
      assert e <= p + (if n >= 5 then 5 else n);
    }
  }

  /** Text without ESC or CSI characters passes the global replace unchanged. */
  lemma {:induction false} StripFromPlain(s: string, i: nat)
    requires i <= |s|
    requires forall k :: i <= k < |s| ==> !IsIntroducer(s[k])
    ensures StripFrom(s, i) == s[i..]
    decreases |s| - i
  {
    if i < |s| {
      StripFromPlain(s, i + 1);
    }
  }

  lemma StripAnsiPlain(s: string)
    requires NoIntroducer(s)
    ensures StripAnsi(s) == s
  {
    StripFromPlain(s, 0);
  }

  /** A string with no ESC or CSI character comes back unchanged apart from trimming. */
  lemma CleanPlain(s: string)
    requires NoIntroducer(s)
    ensures Clean(s) == Trim(s)
  {
    StripAnsiPlain(s);
  }

  /** A plain stretch is copied through, then the replace continues after it. */
  lemma {:induction false} StripFromPlainStretch(s: string, i: nat, j: nat)
    requires i <= j <= |s|
    requires forall k :: i <= k < j ==> !IsIntroducer(s[k])
    ensures StripFrom(s, i) == s[i..j] + StripFrom(s, j)
    decreases j - i
  {
    if i < j {
      StripKeepsPlainHead(s, i);
      StripFromPlainStretch(s, i + 1, j);
      ConsJoin(s[i], s[i + 1..j], StripFrom(s, j));
      assert s[i..j] == [s[i]] + s[i + 1..j];
    }
  }

  lemma ConsJoin(c: char, a: string, b: string)
    ensures [c] + (a + b) == ([c] + a) + b
  {
  }

  const GreenText: string := "Green text"

  /** `"\x1b[32mGreen text\x1b[0m"`, the colour-coded sample. */
  const GreenSample: string := [Esc] + "[32m" + GreenText + [Esc] + "[0m"

  lemma GreenSampleMatches()
    ensures MatchAt(GreenSample, 0) == Some(5)
    ensures MatchAt(GreenSample, 15) == Some(19)
  {
    var s := GreenSample;
    assert PrefixRun(s, 2) == 0;
    assert PrefixRun(s, 1) == 1;
    assert DigitRun(s, 4) == 0;
    assert DigitRun(s, 3) == 1;
    assert DigitRun(s, 2) == 2;
    assert ParamTail(s, 4) == Some(5);
    assert PrefixRun(s, 17) == 0;
    assert PrefixRun(s, 16) == 1;
    assert DigitRun(s, 18) == 0;
    assert DigitRun(s, 17) == 1;
    assert ParamTail(s, 18) == Some(19);
  }

  lemma GreenSampleStrip()
    ensures StripAnsi(GreenSample) == GreenText
  {
    var s := GreenSample;
    GreenSampleMatches();
    GreenSampleBody();
    assert StripAnsi(s) == StripFrom(s, 0) == StripFrom(s, 5);
  }

  /** After the colour code, the text is kept and the reset code removed. */
  lemma GreenSampleBody()
    ensures StripFrom(GreenSample, 5) == GreenText
  {
    var s := GreenSample;
    GreenSampleTail();
    assert NoIntroducer(GreenText);
    forall k | 5 <= k < 15
      ensures !IsIntroducer(s[k])
    {
      assert s[k] == GreenText[k - 5];
    }
    StripFromPlainStretch(s, 5, 15);
    assert s[5..15] == GreenText;
  }

  lemma GreenSampleTail()
    ensures StripFrom(GreenSample, 15) == []
  {
    var s := GreenSample;
    GreenSampleMatches();
    assert |s| == 19;
    assert StripFrom(s, 15) == StripFrom(s, 19);
  }

  /** A string that neither starts nor ends with white space is its own trim. */
  lemma TrimUnpadded(s: string)
    requires s != [] && !IsJsSpace(s[0]) && !IsJsSpace(s[|s| - 1])
    ensures Trim(s) == s
  {
  }

  /** The colour-coded sample cleans to its text. */
  lemma GreenTextSample()
    ensures Clean(GreenSample) == GreenText
  {
    GreenSampleStrip();
    TrimUnpadded(GreenText);
  }

  /**
   * The replace is not idempotent: removing one sequence can join an ESC with
   * a later final character into a new sequence.
   */
  lemma StripAnsiNotIdempotent()
    ensures var s := [Esc, Esc, '[', '0', 'm', 'm'];
            StripAnsi(s) == [Esc, 'm'] && StripAnsi(StripAnsi(s)) == []
  {
    var s := [Esc, Esc, '[', '0', 'm', 'm'];
    assert PrefixRun(s, 1) == 0;
    assert DigitRun(s, 1) == 0;
    assert MatchAt(s, 0) == None;
    assert PrefixRun(s, 3) == 0;
    assert PrefixRun(s, 2) == 1;
    assert DigitRun(s, 4) == 0;
    assert DigitRun(s, 3) == 1;
    assert ParamTail(s, 4) == Some(5);
    assert MatchAt(s, 1) == Some(5);
    assert MatchAt(s, 5) == None;
    assert StripFrom(s, 6) == [];
    assert StripFrom(s, 5) == ['m'];
    assert StripFrom(s, 1) == ['m'];
    assert StripAnsi(s) == [Esc, 'm'];
    var t := [Esc, 'm'];
    assert PrefixRun(t, 1) == 0;
    assert DigitRun(t, 1) == 0;
    assert MatchAt(t, 0) == Some(2);
    assert StripFrom(t, 2) == [];
  }
}
