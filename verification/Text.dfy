/** The string operations the listing engine uses: `toLowerCase`,
    `includes` and `trim`. Strings are sequences of `char`, each a Unicode
    scalar value (JavaScript strings are sequences of UTF-16 code units). */
module Text {

  /** Lower-casing of one character, restricted to the ASCII letters. */
  function LowerChar(c: char): (r: char)
    ensures 'A' <= c <= 'Z' ==> 'a' <= r <= 'z' && r as int - c as int == 32
    ensures !('A' <= c <= 'Z') ==> r == c
  {
    if 'A' <= c <= 'Z' then (c as int + 32) as char else c
  }

  /** `s.toLowerCase()`, character by character. */
  function Lower(s: string): (r: string)
    ensures |r| == |s|
    ensures forall i :: 0 <= i < |s| ==> r[i] == LowerChar(s[i])
  {
    seq(|s|, i requires 0 <= i < |s| => LowerChar(s[i]))
  }

  /** Lower-casing a lower-cased string changes nothing. */
  lemma LowerIdempotent(s: string)
    ensures Lower(Lower(s)) == Lower(s)
  {
    assert forall i :: 0 <= i < |s| ==> LowerChar(LowerChar(s[i])) == LowerChar(s[i]);
  }

  /** `pat` is a prefix of `text`. */
  predicate StartsWith(text: string, pat: string) {
    |pat| <= |text| && text[..|pat|] == pat
  }

  /** `pat` occurs in `text` starting at offset `i`. */
  predicate OccursAt(text: string, pat: string, i: int) {
    0 <= i <= |text| - |pat| && text[i..i + |pat|] == pat
  }

  /** `text.includes(pat)`: `pat` occurs somewhere in `text`. */
  predicate Contains(text: string, pat: string)
    decreases |text|
  {
    StartsWith(text, pat) || (text != [] && Contains(text[1..], pat))
  }

  /** `Contains` holds exactly when `pat` occurs at some offset of `text`. */
  lemma {:induction false} ContainsAt(text: string, pat: string)
    ensures Contains(text, pat) <==> exists i :: OccursAt(text, pat, i)
    decreases |text|
  {
    if text != [] {
      ContainsAt(text[1..], pat);
    }
    if Contains(text, pat) {
      if StartsWith(text, pat) {
        assert OccursAt(text, pat, 0);
      } else {
        var i :| OccursAt(text[1..], pat, i);
        assert text[i + 1..i + 1 + |pat|] == text[1..][i..i + |pat|];
        assert OccursAt(text, pat, i + 1);
      }
    }
    if exists i :: OccursAt(text, pat, i) {
      var i :| OccursAt(text, pat, i);
      if i > 0 {
        assert text[1..][i - 1..i - 1 + |pat|] == text[i..i + |pat|];
        assert OccursAt(text[1..], pat, i - 1);
      }
    }
  }

  /** JavaScript's WhiteSpace and LineTerminator code points, the
      characters `String.prototype.trim` removes. */
  predicate IsJsWhitespace(c: char) {
    || c == '\t' || c == '\n' || c == '\U{000B}' || c == '\U{000C}' || c == '\r'
    || c == ' ' || c == '\U{00A0}' || c == '\U{1680}'
    || ('\U{2000}' <= c <= '\U{200A}')
    || c == '\U{2028}' || c == '\U{2029}' || c == '\U{202F}' || c == '\U{205F}'
    || c == '\U{3000}' || c == '\U{FEFF}'
  }

  /** `s` with its leading whitespace removed. */
  function TrimStart(s: string): (r: string)
    ensures |r| <= |s| && r == s[|s| - |r|..]
    ensures forall i :: 0 <= i < |s| - |r| ==> IsJsWhitespace(s[i])
    ensures r == [] || !IsJsWhitespace(r[0])
  {
    if s != [] && IsJsWhitespace(s[0]) then TrimStart(s[1..]) else s
  }

  /** `s` with its trailing whitespace removed. */
  function TrimEnd(s: string): (r: string)
    ensures |r| <= |s| && r == s[..|r|]
    ensures forall i :: |r| <= i < |s| ==> IsJsWhitespace(s[i])
    ensures r == [] || !IsJsWhitespace(r[|r| - 1])
  {
    if s != [] && IsJsWhitespace(s[|s| - 1]) then TrimEnd(s[..|s| - 1]) else s
  }

  /** `s.trim()`: the part of `s` between its leading and trailing whitespace. */
  function Trim(s: string): (r: string)
    ensures r == [] || (!IsJsWhitespace(r[0]) && !IsJsWhitespace(r[|r| - 1]))
    ensures exists i :: (OccursAt(s, r, i)
      && (forall j :: 0 <= j < i ==> IsJsWhitespace(s[j]))
      && (forall j :: i + |r| <= j < |s| ==> IsJsWhitespace(s[j])))
  {
    var t := TrimStart(s);
    var r := TrimEnd(t);
    assert r == s[|s| - |t|..|s| - |t| + |r|];
    assert OccursAt(s, r, |s| - |t|);
    r
  }

  /** Trimming is idempotent. */
  lemma TrimIdempotent(s: string)
    ensures Trim(Trim(s)) == Trim(s)
  {
    var r := Trim(s);
    assert TrimStart(r) == r;
    assert TrimEnd(r) == r;
  }

  /** A string trims to nothing exactly when it is all whitespace. */
  lemma TrimEmptyIff(s: string)
    ensures Trim(s) == [] <==> forall i :: 0 <= i < |s| ==> IsJsWhitespace(s[i])
  {
    var t := TrimStart(s);
    if forall i :: 0 <= i < |s| ==> IsJsWhitespace(s[i]) {
      assert t == [];
    } else {
      var j :| 0 <= j < |s| && !IsJsWhitespace(s[j]);
      assert t != [];
      assert TrimEnd(t) != [];
    }
  }
}
