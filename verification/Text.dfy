/**
 * Query text: `str.lower`, `str.split` and the `" ".join(text.split())` idiom
 * that the correction and reasoning loops use to compare queries. Which
 * characters are white space and what a character lowers to are parameters.
 */
module Text {

  datatype Charset = Charset(isSpace: char -> bool, lower: char -> string) {
    /** Lowering keeps words words: it neither deletes nor splits one. */
    ghost predicate Valid() {
      && isSpace(' ')
      && lower(' ') == " "
      && forall c :: !isSpace(c) ==> lower(c) != "" && forall d :: d in lower(c) ==> !isSpace(d)
    }
  }

  /** `text.lower()` */
  function Lower(cs: Charset, s: string): string {
    if s == "" then "" else cs.lower(s[0]) + Lower(cs, s[1..])
  }

  /** `part in text` */
  predicate Mentions(text: string, part: string) {
    exists i | 0 <= i <= |text| :: part <= text[i..]
  }

  lemma MentionsMeaning(text: string, part: string)
    ensures Mentions(text, part) <==> exists before, after :: text == before + part + after
  {
    if Mentions(text, part) {
      var i :| 0 <= i <= |text| && part <= text[i..];
      assert text == text[..i] + part + text[i + |part|..];
    }
    if before, after :| text == before + part + after {
      assert text[|before|..] == part + after;
    }
  }

  /** `text.strip()` */
  function Strip(cs: Charset, s: string): string {
    if s == "" then s
    else if cs.isSpace(s[0]) then Strip(cs, s[1..])
    else if cs.isSpace(s[|s| - 1]) then Strip(cs, s[..|s| - 1])
    else s
  }

  ghost predicate Blank(cs: Charset, s: string) {
    forall c :: c in s ==> cs.isSpace(c)
  }

  /** `t` neither starts nor ends with white space. */
  ghost predicate Trimmed(cs: Charset, t: string) {
    t == "" || (!cs.isSpace(t[0]) && !cs.isSpace(t[|t| - 1]))
  }

  /** Stripping leaves exactly what stands between the outer white space. */
  lemma {:induction false} StripMeaning(cs: Charset, before: string, t: string, after: string)
    requires Blank(cs, before) && Blank(cs, after) && Trimmed(cs, t)
    ensures Strip(cs, before + t + after) == t
    decreases |before| + |after|
  {
    var s := before + t + after;
    if before != "" {
      assert s[1..] == before[1..] + t + after;
      StripMeaning(cs, before[1..], t, after);
    } else if t == "" {
      if after != "" {
        assert s[1..] == "" + t + after[1..];
        StripMeaning(cs, "", t, after[1..]);
      }
    } else if after != "" {
      assert s[..|s| - 1] == before + t + after[..|after| - 1];
      StripMeaning(cs, before, t, after[..|after| - 1]);
    }
  }

  /** Length of the word at the front of `s`. */
  function WordLength(cs: Charset, s: string): (n: nat)
    ensures n <= |s|
    ensures forall i :: 0 <= i < n ==> !cs.isSpace(s[i])
    ensures n < |s| ==> cs.isSpace(s[n])
  {
    if s == "" || cs.isSpace(s[0]) then 0 else 1 + WordLength(cs, s[1..])
  }

  /** `text.split()` */
  function Words(cs: Charset, s: string): seq<string>
    decreases |s|
  {
    if s == "" then []
    else if cs.isSpace(s[0]) then Words(cs, s[1..])
    else
      var n := WordLength(cs, s);
      [s[..n]] + Words(cs, s[n..])
  }

  /** `" ".join(words)` */
  function Join(words: seq<string>): string {
    if words == [] then ""
    else if |words| == 1 then words[0]
    else words[0] + " " + Join(words[1..])
  }

  /** `" ".join(text.split())` */
  function Collapse(cs: Charset, s: string): string {
    Join(Words(cs, s))
  }

  /** `" ".join(text.lower().split())`, the key under which queries are compared. */
  function QueryKey(cs: Charset, s: string): string {
    Collapse(cs, Lower(cs, s))
  }

  ghost predicate AreWords(cs: Charset, words: seq<string>) {
    forall w :: w in words ==> w != "" && forall c :: c in w ==> !cs.isSpace(c)
  }

  lemma {:induction false} WordsAreWords(cs: Charset, s: string)
    ensures AreWords(cs, Words(cs, s))
    decreases |s|
  {
    if s == "" {
    } else if cs.isSpace(s[0]) {
      WordsAreWords(cs, s[1..]);
    } else {
      WordsAreWords(cs, s[WordLength(cs, s)..]);
    }
  }

  lemma {:induction false} WordLengthOfWord(cs: Charset, w: string, rest: string)
    requires forall c :: c in w ==> !cs.isSpace(c)
    requires rest != "" ==> cs.isSpace(rest[0])
    ensures WordLength(cs, w + rest) == |w|
  {
    if w == "" {
      assert w + rest == rest;
    } else {
      assert (w + rest)[1..] == w[1..] + rest;
      WordLengthOfWord(cs, w[1..], rest);
    }
  }

  /** A word at the front, ended by white space or the end of the text, is split off. */
  lemma WordsOfWordFirst(cs: Charset, w: string, rest: string)
    requires w != "" && forall c :: c in w ==> !cs.isSpace(c)
    requires rest != "" ==> cs.isSpace(rest[0])
    ensures Words(cs, w + rest) == [w] + Words(cs, rest)
  {
    WordLengthOfWord(cs, w, rest);
    var s := w + rest;
    assert s[..|w|] == w && s[|w|..] == rest;
    assert s[0] == w[0];
  }

  /** Splitting undoes joining. */
  lemma {:induction false} WordsOfJoin(cs: Charset, words: seq<string>)
    requires cs.Valid() && AreWords(cs, words)
    ensures Words(cs, Join(words)) == words
  {
    if words != [] {
      var w, tail := words[0], words[1..];
      assert w in words;
      assert forall x :: x in tail ==> x in words;
      WordsOfJoin(cs, tail);
      var rest := if tail == [] then "" else " " + Join(tail);
      assert Join(words) == w + rest;
      WordsOfWordFirst(cs, w, rest);
      WordsAfterSpace(cs, tail);
    }
  }

  lemma WordsAfterSpace(cs: Charset, tail: seq<string>)
    requires cs.isSpace(' ')
    ensures Words(cs, if tail == [] then "" else " " + Join(tail)) == Words(cs, Join(tail))
  {
    if tail != [] {
      assert (" " + Join(tail))[1..] == Join(tail);
    }
  }

  lemma {:induction false} LowerConcat(cs: Charset, a: string, b: string)
    ensures Lower(cs, a + b) == Lower(cs, a) + Lower(cs, b)
  {
    if a == "" {
      assert a + b == b;
    } else {
      assert (a + b)[1..] == a[1..] + b;
      LowerConcat(cs, a[1..], b);
    }
  }

  lemma {:induction false} LowerOfWord(cs: Charset, w: string)
    requires cs.Valid() && forall c :: c in w ==> !cs.isSpace(c)
    ensures w != "" ==> Lower(cs, w) != ""
    ensures forall c :: c in Lower(cs, w) ==> !cs.isSpace(c)
  {
    if w != "" {
      LowerOfWord(cs, w[1..]);
    }
  }

  function LowerAll(cs: Charset, words: seq<string>): (r: seq<string>)
    ensures |r| == |words|
  {
    if words == [] then [] else [Lower(cs, words[0])] + LowerAll(cs, words[1..])
  }

  lemma {:induction false} LowerOfJoin(cs: Charset, words: seq<string>)
    requires cs.Valid() && AreWords(cs, words)
    ensures Lower(cs, Join(words)) == Join(LowerAll(cs, words))
    ensures AreWords(cs, LowerAll(cs, words))
  {
    if words != [] {
      assert words[0] in words;
      var w, tail := words[0], words[1..];
      LowerOfWord(cs, w);
      assert forall x :: x in tail ==> x in words;
      LowerOfJoin(cs, tail);
      assert LowerAll(cs, words) == [Lower(cs, w)] + LowerAll(cs, tail);
      if tail != [] {
        LowerConcat(cs, w + " ", Join(tail));
        LowerConcat(cs, w, " ");
        assert Lower(cs, " ") == " ";
        assert LowerAll(cs, words)[1..] == LowerAll(cs, tail);
      }
    }
  }

  /**
   * A candidate that is collapsed first and lowered afterwards is already a
   * query key, so testing `candidate.lower()` against a set of query keys
   * tests the candidate's own key.
   */
  lemma {:induction false} CollapsedCandidateIsKey(cs: Charset, s: string)
    requires cs.Valid()
    ensures QueryKey(cs, Collapse(cs, s)) == Lower(cs, Collapse(cs, s))
  {
    var words := Words(cs, s);
    WordsAreWords(cs, s);
    LowerOfJoin(cs, words);
    WordsOfJoin(cs, LowerAll(cs, words));
  }
}
