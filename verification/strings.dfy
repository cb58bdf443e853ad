/** Text helpers the selection engine relies on: ASCII lower-casing, substring
    containment (what an alternation regex over plain words tests), and joining
    reasoning fragments with a separator. */
module Strings {

  /** Lower-cases one ASCII letter and leaves every other character alone. */
  function LowerChar(ch: char): (r: char)
    ensures 'A' <= ch <= 'Z' ==> r as int == ch as int + 32
    ensures !('A' <= ch <= 'Z') ==> r == ch
    ensures !('A' <= r <= 'Z')
  {
    if 'A' <= ch <= 'Z' then (ch as int + 32) as char else ch
  }

  predicate NoUpper(s: string) {
    forall i :: 0 <= i < |s| ==> !('A' <= s[i] <= 'Z')
  }

  /** `String.prototype.toLowerCase`, restricted to the ASCII alphabet. */
  function ToLower(s: string): (r: string)
    ensures |r| == |s|
    ensures NoUpper(r)
    ensures forall i :: 0 <= i < |s| && !('A' <= s[i] <= 'Z') ==> r[i] == s[i]
    ensures forall i :: 0 <= i < |s| && 'A' <= s[i] <= 'Z' ==> r[i] as int == s[i] as int + 32
  {
    if |s| == 0 then [] else [LowerChar(s[0])] + ToLower(s[1..])
  }

  /** A text without upper-case letters is its own lower-case form. */
  lemma {:induction false} ToLowerFixesLower(s: string)
    requires NoUpper(s)
    ensures ToLower(s) == s
  {
    if |s| > 0 {
      ToLowerFixesLower(s[1..]);
    }
  }

  /** ToLower is pinned down by what it does to each character. */
  lemma ToLowerIs(s: string, t: string)
    requires |s| == |t|
    requires forall i :: 0 <= i < |s| ==> t[i] == LowerChar(s[i])
    ensures ToLower(s) == t
  {
  }

  /** Lower-casing twice is lower-casing once. */
  lemma ToLowerIdempotent(s: string)
    ensures ToLower(ToLower(s)) == ToLower(s)
  {
    ToLowerFixesLower(ToLower(s));
  }

  /** Reference meaning of "pat occurs in text": some window of text equals pat. */
  ghost predicate Occurs(text: string, pat: string) {
    exists i :: MatchAt(text, pat, i)
  }

  /** pat is the window of text starting at position i. */
  predicate MatchAt(text: string, pat: string, i: int) {
    0 <= i && i + |pat| <= |text| && text[i..i + |pat|] == pat
  }

  /** A window that does not start at 0 is a window of the text's tail. */
  lemma OccursInTail(text: string, pat: string)
    requires |pat| <= |text|
    requires text[..|pat|] != pat
    ensures Occurs(text, pat) <==> Occurs(text[1..], pat)
  {
    if Occurs(text, pat) {
      var i :| MatchAt(text, pat, i);
      assert i != 0;
      assert text[1..][i - 1..i - 1 + |pat|] == pat;
      assert MatchAt(text[1..], pat, i - 1);
    }
    if Occurs(text[1..], pat) {
      var i :| MatchAt(text[1..], pat, i);
      assert text[i + 1..i + 1 + |pat|] == pat;
      assert MatchAt(text, pat, i + 1);
    }
  }

  /** Substring containment, scanning the text from the left. */
  function Contains(text: string, pat: string): (r: bool)
    ensures r <==> Occurs(text, pat)
    decreases |text|
  {
    if |pat| > |text| then
      false
    else if text[..|pat|] == pat then
      assert MatchAt(text, pat, 0);
      true
    else
      OccursInTail(text, pat);
      Contains(text[1..], pat)
  }

  /** pat occurs at position i when it agrees there character by character. */
  lemma OccursAt(text: string, pat: string, i: int)
    requires 0 <= i && i + |pat| <= |text|
    requires forall j :: 0 <= j < |pat| ==> text[i + j] == pat[j]
    ensures Occurs(text, pat)
  {
    assert MatchAt(text, pat, i);
  }

  /** pat cannot occur when two of its adjacent characters never stand next
      to each other in the text. */
  lemma PairAbsent(text: string, pat: string, j: int)
    requires 0 <= j && j + 1 < |pat|
    requires forall i :: 0 <= i && i + 1 < |text| ==> !(text[i] == pat[j] && text[i + 1] == pat[j + 1])
    ensures !Occurs(text, pat)
  {
    forall i | 0 <= i && i + |pat| <= |text|
      ensures !MatchAt(text, pat, i)
    {
      assert text[i..i + |pat|][j] == text[i + j];
      assert text[i..i + |pat|][j + 1] == text[i + j + 1];
      assert !(text[i + j] == pat[j] && text[i + j + 1] == pat[j + 1]);
    }
  }

  /** What `/t1|t2|...|tn/.test(text)` decides for plain-word alternatives. */
  function ContainsAny(text: string, terms: seq<string>): (r: bool)
    ensures r <==> exists k :: 0 <= k < |terms| && Occurs(text, terms[k])
  {
    if |terms| == 0 then
      false
    else if Contains(text, terms[0]) then
      true
    else
      var r := ContainsAny(text, terms[1..]);
      assert forall k :: 1 <= k < |terms| ==> terms[k] == terms[1..][k - 1];
      r
  }

  /** `Array.prototype.join(sep)`. */
  function Join(parts: seq<string>, sep: string): (r: string)
    ensures (forall k :: 0 <= k < |parts| ==> |parts[k]| > 0) ==> (|r| == 0 <==> |parts| == 0)
    ensures |parts| == 1 ==> r == parts[0]
    ensures |parts| > 1 ==> parts[0] + sep <= r
  {
    if |parts| == 0 then ""
    else if |parts| == 1 then parts[0]
    else parts[0] + sep + Join(parts[1..], sep)
  }

  /** Appending a part appends the separator and that part: the join of
      `[p0, ..., pn]` is `p0 + sep + ... + sep + pn`, every part kept in order. */
  lemma {:induction false} JoinSnoc(parts: seq<string>, x: string, sep: string)
    requires |parts| > 0
    ensures Join(parts + [x], sep) == Join(parts, sep) + sep + x
    decreases |parts|
  {
    if |parts| == 1 {
      assert parts + [x] == [parts[0], x];
      assert (parts + [x])[1..] == [x];
    } else {
      assert (parts + [x])[1..] == parts[1..] + [x];
      JoinSnoc(parts[1..], x, sep);
    }
  }
}
