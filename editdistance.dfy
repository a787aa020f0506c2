/**
 * The word-level match score `precision` of `backend/test_elevenlabs.py`: a
 * Levenshtein table between the whitespace-split reference words and the
 * whitespace-split transcribed words, turned into a word error rate and a
 * match percentage clamped at 0.
 */
module EditDistance {
  import opened Text

  function Min3(a: nat, b: nat, c: nat): (r: nat)
    ensures r <= a && r <= b && r <= c
    ensures r == a || r == b || r == c
  {
    if a <= b && a <= c then a else if b <= c then b else c
  }

  /** Substitution cost: words are compared by exact string equality. */
  function Cost(x: string, y: string): (c: nat)
    ensures c == 0 <==> x == y
    ensures c <= 1
  {
    if x == y then 0 else 1
  }

  /**
   * The table entry `dp[i][j]`: the fewest word deletions, insertions and
   * substitutions turning the first `i` reference words into the first `j`
   * transcribed words.
   */
  function Dist(ref: seq<string>, hyp: seq<string>, i: nat, j: nat): nat
    requires i <= |ref| && j <= |hyp|
    decreases i + j
  {
    if i == 0 then j
    else if j == 0 then i
    else Min3(Dist(ref, hyp, i - 1, j) + 1,
              Dist(ref, hyp, i, j - 1) + 1,
              Dist(ref, hyp, i - 1, j - 1) + Cost(ref[i - 1], hyp[j - 1]))
  }

  /** The distance never exceeds the longer of the two prefixes. */
  lemma {:induction false} DistUpper(ref: seq<string>, hyp: seq<string>, i: nat, j: nat)
    requires i <= |ref| && j <= |hyp|
    ensures Dist(ref, hyp, i, j) <= if i >= j then i else j
    decreases i + j
  {
    if i > 0 && j > 0 {
      DistUpper(ref, hyp, i - 1, j - 1);
    }
  }

  /** The distance is at least the difference in length of the two prefixes. */
  lemma {:induction false} DistLower(ref: seq<string>, hyp: seq<string>, i: nat, j: nat)
    requires i <= |ref| && j <= |hyp|
    ensures Dist(ref, hyp, i, j) >= if i >= j then i - j else j - i
    decreases i + j
  {
    if i > 0 && j > 0 {
      DistLower(ref, hyp, i - 1, j);
      DistLower(ref, hyp, i, j - 1);
      DistLower(ref, hyp, i - 1, j - 1);
    }
  }

  /** The distance is 0 exactly when the two prefixes are the same word list. */
  lemma {:induction false} DistZeroIff(ref: seq<string>, hyp: seq<string>, i: nat, j: nat)
    requires i <= |ref| && j <= |hyp|
    ensures Dist(ref, hyp, i, j) == 0 <==> ref[..i] == hyp[..j]
    decreases i + j
  {
    if i > 0 && j > 0 {
      DistZeroIff(ref, hyp, i - 1, j - 1);
      LastWord(ref, i);
      LastWord(hyp, j);
    } else if i > 0 || j > 0 {
      assert |ref[..i]| != |hyp[..j]|;
    }
  }

  /** A non-empty prefix is the shorter prefix followed by its last word. */
  lemma LastWord(s: seq<string>, k: nat)
    requires 0 < k <= |s|
    ensures s[..k] == s[..k - 1] + [s[k - 1]]
    ensures forall t: seq<string> :: t == s[..k] ==> |t| == k && t[..k - 1] == s[..k - 1] && t[k - 1] == s[k - 1]
  {
  }

  function MaxReal(a: real, b: real): real { if a >= b then a else b }

  /**
   * The returned match: `max(0, (1 - wer) * 100)` where the word error rate is
   * the full distance over `max(1, m)`, `m` being the number of reference words.
   */
  function MatchScore(ref: seq<string>, hyp: seq<string>): (r: real)
    ensures 0.0 <= r <= 100.0
  {
    var d := Dist(ref, hyp, |ref|, |hyp|);
    var denom := if |ref| >= 1 then |ref| else 1;
    MaxReal(0.0, (1.0 - d as real / denom as real) * 100.0)
  }

  /** The clamped match is 100 exactly when the distance is 0. */
  lemma ClampedFullIffZero(d: nat, denom: nat)
    requires denom >= 1
    ensures MaxReal(0.0, (1.0 - d as real / denom as real) * 100.0) == 100.0 <==> d == 0
  {
    if d > 0 {
      assert d as real / denom as real > 0.0;
    }
  }

  /** The match is 100 exactly when the two word lists are identical. */
  lemma MatchFullIffIdentical(ref: seq<string>, hyp: seq<string>)
    ensures MatchScore(ref, hyp) == 100.0 <==> ref == hyp
  {
    DistZeroIff(ref, hyp, |ref|, |hyp|);
    assert ref[..|ref|] == ref && hyp[..|hyp|] == hyp;
    ClampedFullIffZero(Dist(ref, hyp, |ref|, |hyp|), if |ref| >= 1 then |ref| else 1);
  }

  /** With no reference words the denominator is 1: an empty transcription
      matches fully and any other matches 0. */
  lemma EmptyReference(hyp: seq<string>)
    ensures MatchScore([], hyp) == if hyp == [] then 100.0 else 0.0
  {
  }

  /** The full table: `dp[i, j] == Dist(ref, hyp, i, j)` for every cell. */
  method DistanceTable(ref: seq<string>, hyp: seq<string>) returns (dp: array2<nat>)
    ensures fresh(dp)
    ensures dp.Length0 == |ref| + 1 && dp.Length1 == |hyp| + 1
    ensures forall i, j :: 0 <= i <= |ref| && 0 <= j <= |hyp| ==> dp[i, j] == Dist(ref, hyp, i, j)
  {
    var m, n := |ref|, |hyp|;
    dp := new nat[m + 1, n + 1];
    for i := 0 to m + 1
      invariant forall x :: 0 <= x < i ==> dp[x, 0] == x
    {
      dp[i, 0] := i;
    }
    for j := 0 to n + 1
      invariant forall x :: 0 <= x <= m ==> dp[x, 0] == x
      invariant forall y :: 0 <= y < j ==> dp[0, y] == y
    {
      dp[0, j] := j;
    }
    for i := 1 to m + 1
      invariant forall x, y :: 0 <= x < i && 0 <= y <= n ==> dp[x, y] == Dist(ref, hyp, x, y)
      invariant forall x :: i <= x <= m ==> dp[x, 0] == x
    {
      FillRow(dp, ref, hyp, i);
    }
  }

  /** The inner loop: row `i` computed from the rows above it; every other row is left alone. */
  method FillRow(dp: array2<nat>, ref: seq<string>, hyp: seq<string>, i: nat)
    requires dp.Length0 == |ref| + 1 && dp.Length1 == |hyp| + 1
    requires 1 <= i <= |ref|
    requires forall x, y :: 0 <= x < i && 0 <= y <= |hyp| ==> dp[x, y] == Dist(ref, hyp, x, y)
    requires dp[i, 0] == i
    modifies dp
    ensures forall y :: 0 <= y <= |hyp| ==> dp[i, y] == Dist(ref, hyp, i, y)
    ensures forall x, y :: 0 <= x < dp.Length0 && 0 <= y < dp.Length1 && x != i ==> dp[x, y] == old(dp[x, y])
  {
    for j := 1 to |hyp| + 1
      invariant forall y {:trigger dp[i, y]} :: 0 <= y < j ==> dp[i, y] == Dist(ref, hyp, i, y)
      invariant forall x, y :: 0 <= x < dp.Length0 && 0 <= y < dp.Length1 && x != i ==> dp[x, y] == old(dp[x, y])
    {
      var cost := if ref[i - 1] == hyp[j - 1] then 0 else 1;
      var up, left, diag := dp[i - 1, j], dp[i, j - 1], dp[i - 1, j - 1];
      assert up == Dist(ref, hyp, i - 1, j) && diag == Dist(ref, hyp, i - 1, j - 1);
      assert left == Dist(ref, hyp, i, j - 1);
      var cell := Min3(up + 1, left + 1, diag + cost);
      assert cell == Dist(ref, hyp, i, j);
      dp[i, j] := cell;
    }
  }

  /** `precision(transcription, original_text)`. */
  method Precision(transcription: string, originalText: string) returns (score: real)
    ensures score == MatchScore(Split(originalText), Split(transcription))
    ensures 0.0 <= score <= 100.0
  {
    var refWords := Split(originalText);
    var hypWords := Split(transcription);
    var m, n := |refWords|, |hypWords|;
    var dp := DistanceTable(refWords, hypWords);
    var denom := if 1 >= m then 1 else m;
    var wer := dp[m, n] as real / denom as real;
    score := MaxReal(0.0, (1.0 - wer) * 100.0);
  }
}
