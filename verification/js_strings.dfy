/** The JavaScript string operations the container relies on:
    `startsWith`, `includes`, `indexOf`, `split` on a single character,
    and the way a `class` attribute is read as a list of class tokens. */
module JsStrings {

  /** `s.startsWith(prefix)` */
  predicate StartsWith(s: string, prefix: string)
    ensures StartsWith(s, prefix) <==> exists rest :: prefix + rest == s
  {
    if |prefix| <= |s| && s[..|prefix|] == prefix then
      assert prefix + s[|prefix|..] == s;
      true
    else
      false
  }

  /** `s.includes(c)` for a one-character search string. */
  predicate Includes(s: string, c: char)
    ensures Includes(s, c) <==> exists i :: 0 <= i < |s| && s[i] == c
  {
    c in s
  }

  /** `s.indexOf(c)` when the result is not -1: the first position holding `c`. */
  function IndexOf(s: string, c: char): (i: nat)
    requires Includes(s, c)
    ensures i < |s| && s[i] == c
    ensures forall j :: 0 <= j < i ==> s[j] != c
  {
    if s[0] == c then 0 else 1 + IndexOf(s[1..], c)
  }

  /** `s.split(sep)` for a one-character separator: the maximal pieces
      between separators, including empty ones; there is always one more
      piece than there are separators. */
  function Split(s: string, sep: char): (parts: seq<string>)
    ensures |parts| >= 1
    ensures forall i :: 0 <= i < |parts| ==> sep !in parts[i]
    ensures |parts| == 1 <==> sep !in s
    decreases |s|
  {
    if sep !in s then [s]
    else
      var i := IndexOf(s, sep);
      [s[..i]] + Split(s[i + 1..], sep)
  }

  /** `parts.join(sep)`, the inverse of `Split`. */
  function Join(parts: seq<string>, sep: char): string
  {
    if |parts| == 0 then ""
    else if |parts| == 1 then parts[0]
    else parts[0] + [sep] + Join(parts[1..], sep)
  }

  /** Splitting and joining again gives back the original string. */
  lemma {:induction false} JoinSplit(s: string, sep: char)
    ensures Join(Split(s, sep), sep) == s
    decreases |s|
  {
    if sep in s {
      var i := IndexOf(s, sep);
      var rest := s[i + 1..];
      JoinSplit(rest, sep);
      JoinAfterSeparator(s, sep, i, Split(rest, sep));
    }
  }

  /** Joining the piece before position `i` with pieces that join back to
      the text after `i` rebuilds `s` when `s[i]` is the separator. */
  lemma JoinAfterSeparator(s: string, sep: char, i: nat, tail: seq<string>)
    requires i < |s| && s[i] == sep
    requires |tail| >= 1 && Join(tail, sep) == s[i + 1..]
    ensures Join([s[..i]] + tail, sep) == s
  {
  }

  /** Joining separator-free pieces and splitting again gives back the pieces. */
  lemma {:induction false} SplitJoin(parts: seq<string>, sep: char)
    requires |parts| >= 1
    requires forall i :: 0 <= i < |parts| ==> sep !in parts[i]
    ensures Split(Join(parts, sep), sep) == parts
    decreases |parts|
  {
    if |parts| > 1 {
      var s := Join(parts, sep);
      var head := parts[0];
      var rest := Join(parts[1..], sep);
      assert s == head + [sep] + rest;
      assert s[|head|] == sep;
      assert forall j :: 0 <= j < |head| ==> s[j] == head[j];
      assert IndexOf(s, sep) == |head| by {
        assert sep !in head;
      }
      assert s[..|head|] == head;
      assert s[|head| + 1..] == rest;
      SplitJoin(parts[1..], sep);
    }
  }

  /** The characters that separate class names in a `class` attribute
      (ASCII whitespace in the HTML sense). */
  predicate IsClassSeparator(c: char) {
    c == ' ' || c == '\t' || c == '\n' || c == '\r' || c as int == 0x0C
  }

  /** A single class name: non-empty, no separator inside. */
  ghost predicate IsClassToken(t: string) {
    |t| > 0 && forall j :: 0 <= j < |t| ==> !IsClassSeparator(t[j])
  }

  /** Length of the leading run of non-separator characters. */
  function WordLength(s: string): (n: nat)
    ensures n <= |s|
    ensures forall j :: 0 <= j < n ==> !IsClassSeparator(s[j])
    ensures n < |s| ==> IsClassSeparator(s[n])
  {
    if |s| == 0 || IsClassSeparator(s[0]) then 0 else 1 + WordLength(s[1..])
  }

  /** The whitespace-separated class tokens of a `class` attribute, in
      order, empty words dropped and duplicates kept. */
  function ClassTokens(s: string): (ts: seq<string>)
    ensures forall i :: 0 <= i < |ts| ==> IsClassToken(ts[i])
    decreases |s|
  {
    if |s| == 0 then []
    else if IsClassSeparator(s[0]) then ClassTokens(s[1..])
    else
      var n := WordLength(s);
      [s[..n]] + ClassTokens(s[n..])
  }

  /** A separator ends the first word, whatever follows it. */
  lemma {:induction false} WordLengthBeforeSpace(a: string, b: string)
    ensures WordLength(a + " " + b) == WordLength(a)
    decreases |a|
  {
    var s := a + " " + b;
    if |a| > 0 && !IsClassSeparator(a[0]) {
      assert s[1..] == a[1..] + " " + b;
      WordLengthBeforeSpace(a[1..], b);
    }
  }

  /** Joining two class attributes with a space concatenates their class lists. */
  lemma {:induction false} ClassTokensOfSpaceJoin(a: string, b: string)
    ensures ClassTokens(a + " " + b) == ClassTokens(a) + ClassTokens(b)
    decreases |a|
  {
    var s := a + " " + b;
    if |a| == 0 {
      assert s[1..] == b;
    } else if IsClassSeparator(a[0]) {
      assert s[1..] == a[1..] + " " + b;
      ClassTokensOfSpaceJoin(a[1..], b);
    } else {
      WordLengthBeforeSpace(a, b);
      var n := WordLength(a);
      assert s[..n] == a[..n];
      assert s[n..] == a[n..] + " " + b;
      ClassTokensOfSpaceJoin(a[n..], b);
    }
  }

  /** A word without separators is its own first word. */
  lemma WordLengthOfWord(t: string)
    requires forall j :: 0 <= j < |t| ==> !IsClassSeparator(t[j])
    ensures WordLength(t) == |t|
  {
  }

  /** A single class name reads as a one-element class list. */
  lemma SingleClassToken(t: string)
    requires IsClassToken(t)
    ensures ClassTokens(t) == [t]
  {
    WordLengthOfWord(t);
    assert t[..|t|] == t;
    assert t[|t|..] == [];
  }
}
