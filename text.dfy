/** The two string operations the keyword tables rely on: `str.lower()` and the
    substring test `needle in haystack`. */
module Text {

  /** Lower-cases one character; only the ASCII letters A-Z change. */
  function LowerChar(c: char): (d: char)
    ensures 'A' <= c <= 'Z' ==> 'a' <= d <= 'z'
    ensures !('A' <= c <= 'Z') ==> d == c
    ensures !('A' <= d <= 'Z')
  {
    if 'A' <= c <= 'Z' then (c as int - 'A' as int + 'a' as int) as char else c
  }

  /** `s.lower()`, restricted to ASCII letters. */
  function Lower(s: string): (t: string)
    ensures |t| == |s|
    ensures forall i :: 0 <= i < |s| ==> t[i] == LowerChar(s[i])
  {
    seq(|s|, i requires 0 <= i < |s| => LowerChar(s[i]))
  }

  /** Lower-casing twice is lower-casing once. */
  lemma LowerIdempotent(s: string)
    ensures Lower(Lower(s)) == Lower(s)
  {
  }

  /** Lower-casing commutes with taking a slice. */
  lemma LowerSlice(s: string, i: nat, j: nat)
    requires i <= j <= |s|
    ensures Lower(s)[i..j] == Lower(s[i..j])
  {
  }

  /** `word` occurs in `text` starting at index `i`. */
  predicate OccursAt(text: string, word: string, i: int)
  {
    0 <= i && i + |word| <= |text| && text[i..i + |word|] == word
  }

  /** Python's `word in text`: a scan that tries each start position in turn. */
  predicate Contains(text: string, word: string)
    decreases |text|
  {
    if |word| > |text| then false
    else text[..|word|] == word || (|text| > 0 && Contains(text[1..], word))
  }

  /** Every position the scan reports is a real occurrence. */
  lemma {:induction false} ContainsSound(text: string, word: string) returns (i: nat)
    requires Contains(text, word)
    ensures OccursAt(text, word, i)
    decreases |text|
  {
    if text[..|word|] == word {
      i := 0;
    } else {
      var j := ContainsSound(text[1..], word);
      assert text[1..][j..j + |word|] == text[j + 1..j + 1 + |word|];
      i := j + 1;
    }
  }

  /** The scan misses no occurrence. */
  lemma {:induction false} ContainsComplete(text: string, word: string, i: int)
    requires OccursAt(text, word, i)
    ensures Contains(text, word)
    decreases i
  {
    if i > 0 {
      assert text[1..][i - 1..i - 1 + |word|] == text[i..i + |word|];
      ContainsComplete(text[1..], word, i - 1);
    }
  }

  /** The scan finds the word exactly when it occurs at some position. */
  lemma ContainsIff(text: string, word: string)
    ensures Contains(text, word) <==> exists i :: OccursAt(text, word, i)
  {
    if Contains(text, word) {
      var i := ContainsSound(text, word);
    }
    if exists i :: OccursAt(text, word, i) {
      var i :| OccursAt(text, word, i);
      ContainsComplete(text, word, i);
    }
  }

  /** An occurrence survives lower-casing: if `text` contains `word` in any
      case, the lower-cased text contains the lower-cased word. */
  lemma ContainsLower(text: string, word: string)
    requires Contains(text, word)
    ensures Contains(Lower(text), Lower(word))
  {
    var i := ContainsSound(text, word);
    LowerSlice(text, i, i + |word|);
    ContainsComplete(Lower(text), Lower(word), i);
  }
}
