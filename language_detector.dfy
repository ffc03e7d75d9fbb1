/** The heuristic classifier `detectLanguage` (src/language-detector.ts):
    a text is Russian ("ru") when the Cyrillic test beats the Latin test or
    when at least two common Russian words stand in it as separate words;
    otherwise it is English ("en"). */
module LanguageDetector {
  import opened Wrappers
  import opened Text
  import opened Sequences

  /** `/[Ѐ-ӿ]/` */
  predicate IsCyrillic(c: char) {
    '\U{0400}' <= c <= '\U{04FF}'
  }

  /** `/[a-zA-Z]/` */
  predicate IsLatinLetter(c: char) {
    'a' <= c <= 'z' || 'A' <= c <= 'Z'
  }

  ghost predicate HasCyrillic(text: string) {
    exists i :: 0 <= i < |text| && IsCyrillic(text[i])
  }

  ghost predicate HasLatin(text: string) {
    exists i :: 0 <= i < |text| && IsLatinLetter(text[i])
  }

  /** `text.match(re)` for a one-character class and no `g` flag: the first
      matching character, or null when there is none. */
  function FirstMatch(text: string, re: char -> bool): (m: Option<char>)
    ensures m.Some? <==> exists i :: 0 <= i < |text| && re(text[i])
    ensures m.Some? ==> re(m.value) && m.value in text
  {
    if |text| == 0 then None
    else if re(text[0]) then Some(text[0])
    else
      var m := FirstMatch(text[1..], re);
      assert forall i :: 1 <= i < |text| ==> text[i] == text[1..][i - 1];
      m
  }

  /** `(match || []).length`: a match without `g` is an array holding only
      the matched text, since the pattern has no capture groups. */
  function MatchLength(m: Option<char>): nat {
    if m.Some? then 1 else 0
  }

  function CyrillicCount(text: string): (n: nat)
    ensures n <= 1
    ensures n == 1 <==> HasCyrillic(text)
  {
    MatchLength(FirstMatch(text, IsCyrillic))
  }

  function LatinCount(text: string): (n: nat)
    ensures n <= 1
    ensures n == 1 <==> HasLatin(text)
  {
    MatchLength(FirstMatch(text, IsLatinLetter))
  }

  /** The common Russian words the detector looks for. */
  const RussianWords: seq<string> :=
    ["и", "в", "не", "на", "я", "быть", "что", "это", "он", "с"]

  /** The three tests of the filter callback, on the lower-cased text:
      `" w "` inside, `"w "` at the start, or `" w"` at the end. */
  predicate WordFound(lower: string, w: string) {
    Contains(lower, " " + w + " ") || StartsWith(lower, w + " ") || EndsWith(lower, " " + w)
  }

  /** `words.filter(w => WordFound(lower, w))`. */
  function FoundWords(words: seq<string>, lower: string): (r: seq<string>)
    ensures |r| <= |words|
    ensures forall w :: w in r <==> w in words && WordFound(lower, w)
  {
    if |words| == 0 then []
    else
      var rest := FoundWords(words[1..], lower);
      assert words == [words[0]] + words[1..];
      if WordFound(lower, words[0]) then [words[0]] + rest else rest
  }

  function RussianWordsCount(text: string): nat {
    |FoundWords(RussianWords, ToLower(text))|
  }

  /** `detectLanguage(text)`. */
  function DetectLanguage(text: string): (lang: string)
    ensures lang == "ru" || lang == "en"
  {
    if CyrillicCount(text) > LatinCount(text) || RussianWordsCount(text) >= 2 then "ru" else "en"
  }

  // ---------------------------------------------------------------------
  // Properties
  // ---------------------------------------------------------------------

  /** Each listed word counts at most once, so the count is at most ten. */
  lemma RussianWordsCountBound(text: string)
    ensures RussianWordsCount(text) <= 10
  {
  }

  /** The listed words are pairwise distinct. */
  lemma RussianWordsDistinct()
    ensures Distinct(RussianWords)
  {
  }

  /** A sequence holding two distinct values has at least two elements. */
  lemma TwoDistinctMembers(s: seq<string>, a: string, b: string)
    requires a in s && b in s && a != b
    ensures |s| >= 2
  {
    var i :| 0 <= i < |s| && s[i] == a;
    var j :| 0 <= j < |s| && s[j] == b;
    assert i != j;
  }

  /** The Cyrillic test beats the Latin test exactly when the text has a
      character in U+0400..U+04FF and no ASCII letter at all: both counts are
      0 or 1, whatever the number of such characters. */
  lemma CyrillicBeatsLatinIff(text: string)
    ensures CyrillicCount(text) > LatinCount(text) <==> HasCyrillic(text) && !HasLatin(text)
  {
  }

  /** The full decision: Russian exactly when the text is Cyrillic without a
      single ASCII letter, or when two or more listed words are found. */
  lemma DetectLanguageIff(text: string)
    ensures DetectLanguage(text) == "ru" <==>
      (HasCyrillic(text) && !HasLatin(text)) || RussianWordsCount(text) >= 2
  {
    CyrillicBeatsLatinIff(text);
  }

  /** Two distinct listed words, each found as a separate word, force "ru"
      whatever Latin letters the text contains. */
  lemma {:induction false} TwoWordsForceRussian(text: string, w1: string, w2: string)
    requires w1 in RussianWords && w2 in RussianWords && w1 != w2
    requires WordFound(ToLower(text), w1) && WordFound(ToLower(text), w2)
    ensures DetectLanguage(text) == "ru"
  {
    var found := FoundWords(RussianWords, ToLower(text));
    TwoDistinctMembers(found, w1, w2);
  }

  /** Conversely, a count of two or more means two distinct listed words were
      found. */
  lemma {:induction false} CountTwoHasTwoWords(text: string)
    requires RussianWordsCount(text) >= 2
    ensures exists w1, w2 ::
      && w1 in RussianWords && w2 in RussianWords && w1 != w2
      && WordFound(ToLower(text), w1) && WordFound(ToLower(text), w2)
  {
    var lower := ToLower(text);
    var found := FoundWords(RussianWords, lower);
    FoundWordsDistinct(RussianWords, lower);
    RussianWordsDistinct();
    var w1, w2 := found[0], found[1];
    assert w1 in found && w2 in found;
    assert w1 in RussianWords && WordFound(lower, w1);
    assert w2 in RussianWords && WordFound(lower, w2);
    assert w1 != w2;
    assert && w1 in RussianWords && w2 in RussianWords && w1 != w2
      && WordFound(ToLower(text), w1) && WordFound(ToLower(text), w2);
  }

  /** Filtering a list of distinct words keeps them distinct. */
  lemma {:induction false} FoundWordsDistinct(words: seq<string>, lower: string)
    requires Distinct(words)
    ensures Distinct(FoundWords(words, lower))
  {
    if |words| > 0 {
      var rest := FoundWords(words[1..], lower);
      assert Distinct(words[1..]) by {
        forall i, j | 0 <= i < j < |words| - 1 ensures words[1..][i] != words[1..][j] {
          assert words[1..][i] == words[i + 1] && words[1..][j] == words[j + 1];
        }
      }
      FoundWordsDistinct(words[1..], lower);
      assert words[0] !in words[1..];
      assert words[0] !in rest;
      var r := FoundWords(words, lower);
      if WordFound(lower, words[0]) {
        assert r == [words[0]] + rest;
        forall i, j | 0 <= i < j < |r| ensures r[i] != r[j] {
          assert r[j] == rest[j - 1] && rest[j - 1] in rest;
          if i > 0 { assert r[i] == rest[i - 1]; }
        }
      }
    }
  }

  /** A listed word is found only next to a space: in a text with no space
      no word counts, so a text that is just "и" counts none. */
  lemma WordNeedsSpace(text: string, w: string)
    requires WordFound(ToLower(text), w)
    ensures ' ' in text
  {
    var lower := ToLower(text);
    var k: int;
    if Contains(lower, " " + w + " ") {
      var p := " " + w + " ";
      var i :| 0 <= i <= |lower| - |p| && OccursAt(lower, p, i);
      assert lower[i..i + |p|][0] == p[0];
      k := i;
    } else if StartsWith(lower, w + " ") {
      var p := w + " ";
      assert lower[..|p|][|w|] == p[|w|];
      k := |w|;
    } else {
      var p := " " + w;
      assert lower[|lower| - |p|..][0] == p[0];
      k := |lower| - |p|;
    }
    assert lower[k] == ' ';
    assert LowerChar(text[k]) == ' ';
  }

  /** Without a space in the text no listed word is found. */
  lemma {:induction false} NoSpaceNoWords(text: string)
    requires ' ' !in text
    ensures RussianWordsCount(text) == 0
  {
    var found := FoundWords(RussianWords, ToLower(text));
    if |found| > 0 {
      WordNeedsSpace(text, found[0]);
    }
  }

  /** The single word "и" is not counted, yet it is classified as Russian
      through the Cyrillic test. */
  lemma LoneConjunction()
    ensures RussianWordsCount("и") == 0
    ensures DetectLanguage("и") == "ru"
  {
    NoSpaceNoWords("и");
    assert IsCyrillic("и"[0]);
  }

  /** The empty text is English. */
  lemma EmptyIsEnglish()
    ensures DetectLanguage("") == "en"
  {
    NoSpaceNoWords("");
  }

  /** Without a Cyrillic character and with fewer than two listed words,
      the answer is "en". */
  lemma NoCyrillicFewWordsIsEnglish(text: string)
    requires !HasCyrillic(text) && RussianWordsCount(text) < 2
    ensures DetectLanguage(text) == "en"
  {
  }

  /** The surprising side: a single ASCII letter outweighs any amount of
      Cyrillic, so a Russian text with one Latin letter and fewer than two
      listed words is classified as English. */
  lemma OneLatinLetterMakesEnglish(text: string)
    requires HasLatin(text) && RussianWordsCount(text) < 2
    ensures DetectLanguage(text) == "en"
  {
  }
}
