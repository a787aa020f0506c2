/**
 * Character classes and the string operations the scoring engine uses:
 * `str.lower()`, `str.strip()`, `str.split()` and the regex tokenizer
 * `[^\w']+ -> " "` followed by `split()`.
 *
 * Python's Unicode tables are abstracted: the classes below are exact on
 * Latin-1 (U+0000..U+00FF), which holds every Spanish letter; characters
 * above U+00FF are treated as non-word characters that `lower()` keeps.
 */
module Text {

  /** Python `str.isspace()` on Latin-1. */
  predicate IsSpace(c: char) {
    var k := c as int;
    k == 0x20 || (0x09 <= k <= 0x0D) || (0x1C <= k <= 0x1F) || k == 0x85 || k == 0xA0
  }

  /** Upper-case letters that `str.lower()` changes (Latin-1). */
  predicate IsUpper(c: char) {
    var k := c as int;
    (0x41 <= k <= 0x5A) || (0xC0 <= k <= 0xDE && k != 0xD7)
  }

  /** The regex class `\w` (letters, digits, numeric characters, underscore) on Latin-1. */
  predicate IsWordChar(c: char) {
    var k := c as int;
    (0x30 <= k <= 0x39) || (0x41 <= k <= 0x5A) || k == 0x5F || (0x61 <= k <= 0x7A)
    || k == 0xAA || k == 0xB2 || k == 0xB3 || k == 0xB5 || k == 0xB9 || k == 0xBA
    || (0xBC <= k <= 0xBE) || (0xC0 <= k <= 0xFF && k != 0xD7 && k != 0xF7)
  }

  /** Characters the tokenizer keeps: `\w` and the apostrophe. */
  predicate IsTokenChar(c: char) {
    IsWordChar(c) || c == '\''
  }

  function ToLower(c: char): (r: char)
    ensures !IsUpper(r)
    ensures IsSpace(r) == IsSpace(c) && IsTokenChar(r) == IsTokenChar(c)
  {
    if IsUpper(c) then (c as int + 0x20) as char else c
  }

  /** `str.lower()` */
  function Lower(s: string): (r: string)
    ensures |r| == |s|
    ensures forall i :: 0 <= i < |s| ==> r[i] == ToLower(s[i])
  {
    seq(|s|, i requires 0 <= i < |s| => ToLower(s[i]))
  }

  ghost predicate IsLowerCase(s: string) {
    forall i :: 0 <= i < |s| ==> !IsUpper(s[i])
  }

  lemma LowerIdempotent(s: string)
    ensures IsLowerCase(Lower(s)) && Lower(Lower(s)) == Lower(s)
  {
  }

  lemma LowerOfLowerCase(s: string)
    requires IsLowerCase(s)
    ensures Lower(s) == s
  {
  }

  // ---------------------------------------------------------------
  // strip()
  // ---------------------------------------------------------------

  function TrimStart(s: string): (r: string)
    ensures |r| <= |s| && r == s[|s| - |r|..]
    ensures r != [] ==> !IsSpace(r[0])
    ensures forall i :: 0 <= i < |s| - |r| ==> IsSpace(s[i])
  {
    if s != [] && IsSpace(s[0]) then TrimStart(s[1..]) else s
  }

  function TrimEnd(s: string): (r: string)
    ensures |r| <= |s| && r == s[..|r|]
    ensures r != [] ==> !IsSpace(r[|r| - 1])
    ensures forall i :: |r| <= i < |s| ==> IsSpace(s[i])
  {
    if s != [] && IsSpace(s[|s| - 1]) then TrimEnd(s[..|s| - 1]) else s
  }

  /** `str.strip()`: drop leading and trailing whitespace. */
  function Strip(s: string): string {
    TrimEnd(TrimStart(s))
  }

  ghost predicate AllSpace(s: string) {
    forall i :: 0 <= i < |s| ==> IsSpace(s[i])
  }

  ghost predicate IsStripped(s: string) {
    s != [] ==> !IsSpace(s[0]) && !IsSpace(s[|s| - 1])
  }

  /** `s.strip()` has no surrounding whitespace, and it is empty exactly when
      `s` is blank. */
  lemma StripSpec(s: string)
    ensures IsStripped(Strip(s))
    ensures Strip(s) == [] <==> AllSpace(s)
  {
    var t := TrimStart(s);
    var r := TrimEnd(t);
    if r != [] {
      assert r[0] == t[0];
    }
    StripEmptyIff(s);
  }

  lemma StripEmptyIff(s: string)
    ensures Strip(s) == [] <==> AllSpace(s)
  {
    var t := TrimStart(s);
    var r := TrimEnd(t);
    var i := |s| - |t|;
    if r == [] {
      assert t == [];
    } else {
      assert r[0] == t[0] == s[i];
    }
  }

  /** Lower-casing never moves whitespace, so it commutes with `strip()`. */
  lemma {:induction false} StripOfLower(s: string)
    ensures Strip(Lower(s)) == Lower(Strip(s))
  {
    TrimStartOfLower(s);
    TrimEndOfLower(TrimStart(s));
  }

  lemma {:induction false} TrimStartOfLower(s: string)
    ensures TrimStart(Lower(s)) == Lower(TrimStart(s))
    decreases |s|
  {
    if s != [] && IsSpace(s[0]) {
      assert Lower(s)[1..] == Lower(s[1..]);
      TrimStartOfLower(s[1..]);
    }
  }

  lemma {:induction false} TrimEndOfLower(s: string)
    ensures TrimEnd(Lower(s)) == Lower(TrimEnd(s))
    decreases |s|
  {
    if s != [] && IsSpace(s[|s| - 1]) {
      assert Lower(s)[..|s| - 1] == Lower(s[..|s| - 1]);
      TrimEndOfLower(s[..|s| - 1]);
    }
  }

  // ---------------------------------------------------------------
  // split()
  // ---------------------------------------------------------------

  /** Length of the leading run of non-whitespace characters. */
  function FieldLength(s: string): (n: nat)
    ensures n <= |s|
    ensures forall i :: 0 <= i < n ==> !IsSpace(s[i])
    ensures n < |s| ==> IsSpace(s[n])
  {
    if s == [] || IsSpace(s[0]) then 0 else 1 + FieldLength(s[1..])
  }

  ghost predicate NoSpace(w: string) {
    forall j :: 0 <= j < |w| ==> !IsSpace(w[j])
  }

  /** `str.split()` with no separator: the maximal runs of non-whitespace
      characters, in order; each field is non-empty, holds no whitespace and
      holds only characters of `s`. */
  function Split(s: string): (r: seq<string>)
    ensures forall i :: 0 <= i < |r| ==> r[i] != [] && NoSpace(r[i])
    ensures forall i, j :: 0 <= i < |r| && 0 <= j < |r[i]| ==> r[i][j] in s
    decreases |s|
  {
    if s == [] then []
    else if IsSpace(s[0]) then Split(s[1..])
    else
      var n := FieldLength(s);
      [s[..n]] + Split(s[n..])
  }

  /** Non-whitespace characters of `s`, in order. */
  function NonSpace(s: string): string {
    if s == [] then [] else (if IsSpace(s[0]) then [] else [s[0]]) + NonSpace(s[1..])
  }

  function Concat(ws: seq<string>): string {
    if ws == [] then [] else ws[0] + Concat(ws[1..])
  }

  lemma {:induction false} NonSpaceAppend(a: string, b: string)
    ensures NonSpace(a + b) == NonSpace(a) + NonSpace(b)
  {
    if a == [] {
      assert a + b == b;
    } else {
      var h := if IsSpace(a[0]) then [] else [a[0]];
      assert (a + b)[0] == a[0];
      assert (a + b)[1..] == a[1..] + b;
      assert NonSpace(a + b) == h + NonSpace(a[1..] + b);
      NonSpaceAppend(a[1..], b);
      assert h + (NonSpace(a[1..]) + NonSpace(b)) == (h + NonSpace(a[1..])) + NonSpace(b);
    }
  }

  lemma {:induction false} NonSpaceOfField(w: string)
    requires NoSpace(w)
    ensures NonSpace(w) == w
  {
    if w != [] {
      NonSpaceOfField(w[1..]);
    }
  }

  /** Splitting loses only the whitespace: the fields, joined back together,
      are exactly the non-whitespace characters of the input. */
  lemma {:induction false} SplitKeepsNonSpace(s: string)
    ensures Concat(Split(s)) == NonSpace(s)
    decreases |s|
  {
    if s == [] {
    } else if IsSpace(s[0]) {
      SplitKeepsNonSpace(s[1..]);
    } else {
      var n := FieldLength(s);
      SplitKeepsNonSpace(s[n..]);
      assert s == s[..n] + s[n..];
      NonSpaceAppend(s[..n], s[n..]);
      NonSpaceOfField(s[..n]);
      assert Split(s)[1..] == Split(s[n..]);
    }
  }

  /** `split()` yields no field exactly when the input is blank. */
  lemma {:induction false} SplitEmptyIff(s: string)
    ensures Split(s) == [] <==> AllSpace(s)
    decreases |s|
  {
    if s != [] && IsSpace(s[0]) {
      SplitEmptyIff(s[1..]);
      if AllSpace(s[1..]) {
        forall i | 0 <= i < |s| ensures IsSpace(s[i]) {
          if i > 0 { assert s[i] == s[1..][i - 1]; }
        }
      }
    }
  }

  /** The leading field ends exactly at the first whitespace character, or at the end. */
  lemma FieldLengthAt(s: string, m: nat)
    requires m <= |s| && (forall i :: 0 <= i < m ==> !IsSpace(s[i])) && (m < |s| ==> IsSpace(s[m]))
    ensures FieldLength(s) == m
  {
  }

  /** A non-empty run without whitespace is one field: `w.split() == [w]`. */
  lemma SplitField(w: string)
    requires w != [] && NoSpace(w)
    ensures Split(w) == [w]
  {
    FieldLengthAt(w, |w|);
    assert w[..|w|] == w;
    assert w[|w|..] == [];
  }

  /** A whitespace character right after `a` leaves `a`'s leading field unchanged. */
  lemma FieldBeforeSpace(a: string, c: char, b: string)
    requires IsSpace(c)
    ensures FieldLength(a + [c] + b) == FieldLength(a)
  {
    var s := a + [c] + b;
    var m := FieldLength(a);
    forall i | 0 <= i < m
      ensures !IsSpace(s[i])
    {
      assert s[i] == a[i];
    }
    assert IsSpace(s[m]) by {
      if m < |a| {
        assert s[m] == a[m];
      } else {
        assert s[m] == c;
      }
    }
    FieldLengthAt(s, m);
  }

  /** Fields never cross whitespace: splitting at a whitespace character splits
      each side on its own. With SplitField and `Split([]) == []` this fixes
      every field as a maximal non-whitespace run. */
  lemma {:induction false} SplitAtSpace(a: string, c: char, b: string)
    requires IsSpace(c)
    ensures Split(a + [c] + b) == Split(a) + Split(b)
    decreases |a|
  {
    if a == [] {
      assert a + [c] + b == [c] + b;
      SplitSpaceStep([c] + b);
    } else if IsSpace(a[0]) {
      SplitAtSpace(a[1..], c, b);
      SpaceSplitAtSpace(a, c, b);
    } else {
      SplitAtSpace(a[FieldLength(a)..], c, b);
      FieldSplitAtSpace(a, c, b);
    }
  }

  /** A leading whitespace character contributes no field. */
  lemma SplitSpaceStep(s: string)
    requires s != [] && IsSpace(s[0])
    ensures Split(s) == Split(s[1..])
  {
  }

  /** A leading field is split off whole. */
  lemma SplitFieldStep(s: string, m: nat)
    requires s != [] && !IsSpace(s[0]) && FieldLength(s) == m
    ensures Split(s) == [s[..m]] + Split(s[m..])
  {
  }

  /** The step of SplitAtSpace for a text that starts with whitespace. */
  lemma SpaceSplitAtSpace(a: string, c: char, b: string)
    requires IsSpace(c) && a != [] && IsSpace(a[0])
    requires Split(a[1..] + [c] + b) == Split(a[1..]) + Split(b)
    ensures Split(a + [c] + b) == Split(a) + Split(b)
  {
    var s := a + [c] + b;
    assert s[0] == a[0];
    assert s[1..] == a[1..] + [c] + b;
    SplitSpaceStep(s);
    SplitSpaceStep(a);
  }

  /** The step of SplitAtSpace for a text that starts with a field. */
  lemma FieldSplitAtSpace(a: string, c: char, b: string)
    requires IsSpace(c) && a != [] && !IsSpace(a[0])
    requires Split(a[FieldLength(a)..] + [c] + b) == Split(a[FieldLength(a)..]) + Split(b)
    ensures Split(a + [c] + b) == Split(a) + Split(b)
  {
    var s := a + [c] + b;
    var m := FieldLength(a);
    FieldBeforeSpace(a, c, b);
    FieldSlices(a, c, b, m);
    SplitFieldStep(s, m);
    SplitFieldStep(a, m);
    ConsAppend(a[..m], Split(a[m..]), Split(b));
  }

  lemma FieldSlices(a: string, c: char, b: string, m: nat)
    requires 0 < m <= |a|
    ensures (a + [c] + b)[0] == a[0]
    ensures (a + [c] + b)[..m] == a[..m] && (a + [c] + b)[m..] == a[m..] + [c] + b
  {
  }

  lemma ConsAppend(x: string, p: seq<string>, q: seq<string>)
    ensures [x] + (p + q) == ([x] + p) + q
  {
  }

  // ---------------------------------------------------------------
  // The regex tokenizer
  // ---------------------------------------------------------------

  /** `re.sub(r"[^\w']+", " ", s)`, written per character: replacing every
      non-token character by a space yields the same `split()` as replacing
      each maximal run of them by one space. */
  function Scrub(s: string): (r: string)
    ensures |r| == |s|
    ensures forall i :: 0 <= i < |s| ==> r[i] == if IsTokenChar(s[i]) then s[i] else ' '
  {
    seq(|s|, i requires 0 <= i < |s| => if IsTokenChar(s[i]) then s[i] else ' ')
  }

  ghost predicate IsToken(w: string) {
    w != [] && IsLowerCase(w) && forall j :: 0 <= j < |w| ==> IsTokenChar(w[j])
  }

  /** `_tokenize`: lower-case, turn every run of characters other than word
      characters and apostrophes into a space, split on whitespace. */
  function Tokenize(text: string): (r: seq<string>)
    ensures text == [] ==> r == []
  {
    if text == [] then [] else Split(Scrub(Lower(text)))
  }

  /** Every token is non-empty, lower-case and made only of word characters
      and apostrophes. */
  lemma TokenizeTokens(text: string)
    ensures forall i :: 0 <= i < |Tokenize(text)| ==> IsToken(Tokenize(text)[i])
  {
    if text != [] {
      var s := Scrub(Lower(text));
      var r := Split(s);
      forall i, j | 0 <= i < |r| && 0 <= j < |r[i]|
        ensures IsTokenChar(r[i][j]) && !IsUpper(r[i][j])
      {
        var c := r[i][j];
        assert c in s && !IsSpace(c);
        var k :| 0 <= k < |s| && s[k] == c;
      }
    }
  }

  /** A text without any word character or apostrophe (empty, blank, or only
      punctuation) has no tokens. */
  lemma TokenizeNoTokenChars(text: string)
    requires forall i :: 0 <= i < |text| ==> !IsTokenChar(text[i])
    ensures Tokenize(text) == []
  {
    if text != [] {
      var s := Scrub(Lower(text));
      assert AllSpace(s);
      SplitEmptyIff(s);
    }
  }

  /** The tokens, joined together, are exactly the word characters and
      apostrophes of the lower-cased text: no such character is lost, none added. */
  lemma TokenizeKeepsTokenChars(text: string)
    ensures Concat(Tokenize(text)) == TokenChars(Lower(text))
  {
    if text == [] {
    } else {
      var s := Scrub(Lower(text));
      SplitKeepsNonSpace(s);
      ScrubNonSpace(Lower(text));
    }
  }

  /** Word characters and apostrophes of `s`, in order. */
  function TokenChars(s: string): string {
    if s == [] then [] else (if IsTokenChar(s[0]) then [s[0]] else []) + TokenChars(s[1..])
  }

  lemma {:induction false} ScrubNonSpace(s: string)
    ensures NonSpace(Scrub(s)) == TokenChars(s)
  {
    if s != [] {
      assert Scrub(s)[1..] == Scrub(s[1..]);
      ScrubNonSpace(s[1..]);
    }
  }

  /** A non-empty run of word characters and apostrophes is one token, lower-cased. */
  lemma TokenizeWord(w: string)
    requires w != [] && forall i :: 0 <= i < |w| ==> IsTokenChar(w[i])
    ensures Tokenize(w) == [Lower(w)]
  {
    assert Scrub(Lower(w)) == Lower(w);
    SplitField(Lower(w));
  }

  /** Tokens never cross a character other than a word character or an
      apostrophe: the text splits there into independently tokenized parts. */
  lemma TokenizeAtSeparator(a: string, c: char, b: string)
    requires !IsTokenChar(c)
    ensures Tokenize(a + [c] + b) == Tokenize(a) + Tokenize(b)
  {
    assert Scrub(Lower(a + [c] + b)) == Scrub(Lower(a)) + [' '] + Scrub(Lower(b));
    SplitAtSpace(Scrub(Lower(a)), ' ', Scrub(Lower(b)));
  }

  /** Tokenizing ignores letter case. */
  lemma TokenizeIgnoresCase(a: string, b: string)
    requires Lower(a) == Lower(b)
    ensures Tokenize(a) == Tokenize(b)
  {
    assert |a| == |b|;
  }
}
