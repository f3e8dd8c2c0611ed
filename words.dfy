/**
 * Python's `str.split()` with no separator, which `select_text` uses to break
 * a phrase into its first and last words: runs of whitespace separate words
 * and no word is empty.
 */
module Words {

  /** The characters for which Python's `str.isspace()` holds. */
  predicate IsWhitespace(c: char)
  {
    || c == ' ' || c == '\t' || c == '\n' || c == '\r'
    || c == '\U{000B}' || c == '\U{000C}'
    || ('\U{001C}' <= c <= '\U{001F}')
    || c == '\U{0085}' || c == '\U{00A0}' || c == '\U{1680}'
    || ('\U{2000}' <= c <= '\U{200A}')
    || c == '\U{2028}' || c == '\U{2029}' || c == '\U{202F}' || c == '\U{205F}' || c == '\U{3000}'
  }

  predicate AllWhitespace(s: string)
  {
    forall i :: 0 <= i < |s| ==> IsWhitespace(s[i])
  }

  predicate NoWhitespace(s: string)
  {
    forall i :: 0 <= i < |s| ==> !IsWhitespace(s[i])
  }

  /** The length of the longest prefix of `s` that holds no whitespace. */
  function WordLength(s: string): (n: nat)
    ensures n <= |s|
    ensures NoWhitespace(s[..n])
    ensures n < |s| ==> IsWhitespace(s[n])
  {
    if s == [] || IsWhitespace(s[0]) then 0 else 1 + WordLength(s[1..])
  }

  /** `s.split()`: the maximal whitespace-free runs of `s`, in order. */
  function Split(s: string): (words: seq<string>)
    ensures forall k :: 0 <= k < |words| ==> words[k] != [] && NoWhitespace(words[k])
    ensures words == [] <==> AllWhitespace(s)
    decreases |s|
  {
    if s == [] then []
    else if IsWhitespace(s[0]) then Split(s[1..])
    else
      var n := WordLength(s);
      [s[..n]] + Split(s[n..])
  }

  /** The characters of `s` that are not whitespace, in order. */
  function Letters(s: string): (r: string)
    ensures |r| <= |s|
    ensures NoWhitespace(r)
  {
    if s == [] then []
    else (if IsWhitespace(s[0]) then [] else [s[0]]) + Letters(s[1..])
  }

  function Concat(words: seq<string>): (joined: string)
  {
    if words == [] then [] else words[0] + Concat(words[1..])
  }

  lemma {:induction false} LettersAppend(a: string, b: string)
    ensures Letters(a + b) == Letters(a) + Letters(b)
  {
    if a == [] {
      assert a + b == b;
    } else {
      var head := if IsWhitespace(a[0]) then [] else [a[0]];
      assert (a + b)[0] == a[0];
      assert (a + b)[1..] == a[1..] + b;
      LettersAppend(a[1..], b);
      calc {
        Letters(a + b);
        head + Letters(a[1..] + b);
        head + (Letters(a[1..]) + Letters(b));
        (head + Letters(a[1..])) + Letters(b);
        Letters(a) + Letters(b);
      }
    }
  }

  lemma {:induction false} LettersOfWord(w: string)
    requires NoWhitespace(w)
    ensures Letters(w) == w
  {
    if w != [] {
      LettersOfWord(w[1..]);
    }
  }

  /**
   * Splitting loses only whitespace: the words, put back together, are exactly
   * the non-whitespace characters of the phrase.
   */
  lemma {:induction false} SplitKeepsLetters(s: string)
    ensures Concat(Split(s)) == Letters(s)
    decreases |s|
  {
    if s == [] {
    } else if IsWhitespace(s[0]) {
      SplitKeepsLetters(s[1..]);
    } else {
      var n := WordLength(s);
      assert s == s[..n] + s[n..];
      SplitKeepsLetters(s[n..]);
      LettersAppend(s[..n], s[n..]);
      LettersOfWord(s[..n]);
      assert ([s[..n]] + Split(s[n..]))[1..] == Split(s[n..]);
    }
  }

  /** The first word of a phrase reaches exactly up to the first whitespace. */
  lemma {:induction false} WordLengthOfWord(w: string, rest: string)
    requires NoWhitespace(w)
    requires rest == [] || IsWhitespace(rest[0])
    ensures WordLength(w + rest) == |w|
  {
    if w == [] {
      assert w + rest == rest;
    } else {
      assert (w + rest)[0] == w[0];
      assert (w + rest)[1..] == w[1..] + rest;
      WordLengthOfWord(w[1..], rest);
    }
  }

  /** A word followed by whitespace and more text splits into that word and the rest's words. */
  lemma SplitLeadingWord(w: string, rest: string)
    requires w != [] && NoWhitespace(w)
    requires rest == [] || IsWhitespace(rest[0])
    ensures Split(w + rest) == [w] + Split(rest)
  {
    WordLengthOfWord(w, rest);
    assert (w + rest)[..|w|] == w;
    assert (w + rest)[|w|..] == rest;
  }

  /** Neither word of the example phrase holds whitespace. */
  lemma ExampleWords()
    ensures NoWhitespace("hello") && NoWhitespace("world")
  {
    forall c | c in "helowrd" ensures !IsWhitespace(c) {
    }
  }

  /** A two-word phrase splits into its two words. */
  lemma SplitTwoWords()
    ensures Split("hello world") == ["hello", "world"]
  {
    ExampleWords();
    assert "hello world" == "hello" + " world";
    SplitLeadingWord("hello", " world");
    assert Split(" world") == Split("world");
    assert "world" == "world" + [];
    SplitLeadingWord("world", []);
  }
}
