/** ASCII models of the Python string built-ins the block application relies on:
    `str.isalpha`, `str.upper`, `str.strip` and `str.split` with no arguments. */
module Text {

  /** Python's whitespace in the ASCII range: tab, line feed, vertical tab, form feed,
      carriage return, the four information separators 0x1C-0x1F, and space. */
  predicate IsSpace(c: char) {
    (9 <= c as int <= 13) || (28 <= c as int <= 32)
  }

  predicate IsLower(c: char) { 'a' <= c <= 'z' }

  predicate IsUpper(c: char) { 'A' <= c <= 'Z' }

  predicate IsLetter(c: char) { IsLower(c) || IsUpper(c) }

  /** `s.isalpha()`: true exactly when `s` is non-empty and made of letters only. */
  predicate IsAlpha(s: string) {
    |s| > 0 && forall i :: 0 <= i < |s| ==> IsLetter(s[i])
  }

  predicate NoSpace(s: string) {
    forall i :: 0 <= i < |s| ==> !IsSpace(s[i])
  }

  /** `c.upper()` for a single ASCII character. */
  function UpperChar(c: char): (u: char)
    ensures IsLower(c) ==> IsUpper(u) && u as int == c as int - 32
    ensures !IsLower(c) ==> u == c
    ensures IsLetter(u) <==> IsLetter(c)
    ensures !IsLower(u)
  {
    if IsLower(c) then (c as int - 32) as char else c
  }

  /** `s.upper()`: every character mapped by UpperChar, the length kept. */
  function Upper(s: string): (u: string)
    ensures |u| == |s|
    ensures forall i :: 0 <= i < |s| ==> u[i] == UpperChar(s[i])
  {
    if s == [] then [] else [UpperChar(s[0])] + Upper(s[1..])
  }

  /** Number of whitespace characters at the start of `s`. */
  function LeadingSpaces(s: string): (n: nat)
    ensures n <= |s|
    ensures forall i :: 0 <= i < n ==> IsSpace(s[i])
    ensures n < |s| ==> !IsSpace(s[n])
  {
    if s != [] && IsSpace(s[0]) then 1 + LeadingSpaces(s[1..]) else 0
  }

  /** Length of `s` without its trailing whitespace. */
  function TextEnd(s: string): (n: nat)
    ensures n <= |s|
    ensures forall i :: n <= i < |s| ==> IsSpace(s[i])
    ensures n > 0 ==> !IsSpace(s[n - 1])
  {
    if s != [] && IsSpace(s[|s| - 1]) then TextEnd(s[..|s| - 1]) else |s|
  }

  /** `s.lstrip()`. */
  function TrimStart(s: string): string {
    s[LeadingSpaces(s)..]
  }

  /** `r` is `s` with the `i` characters before it and all characters after it removed,
      every one of them whitespace. */
  ghost predicate StrippedAt(s: string, r: string, i: nat) {
    i + |r| <= |s| && r == s[i..i + |r|] &&
    (forall k :: 0 <= k < i ==> IsSpace(s[k])) &&
    (forall k :: i + |r| <= k < |s| ==> IsSpace(s[k]))
  }

  /** `s.strip()`: `s` with leading and trailing whitespace removed. */
  function Strip(s: string): (r: string)
    ensures StrippedAt(s, r, LeadingSpaces(s))
    ensures r == [] || (!IsSpace(r[0]) && !IsSpace(r[|r| - 1]))
  {
    var a := LeadingSpaces(s);
    if a == |s| then [] else s[a..TextEnd(s)]
  }

  /** Strip is characterised by its contract: a non-empty run that neither starts nor ends
      with whitespace and has only whitespace around it is the stripped string. */
  lemma StripUnique(s: string, r: string, i: nat)
    requires StrippedAt(s, r, i) && r != [] && !IsSpace(r[0]) && !IsSpace(r[|r| - 1])
    ensures Strip(s) == r
  {
    var t, j := Strip(s), LeadingSpaces(s);
    StrippedEnds(s, r, i);
    if t != [] {
      StrippedEnds(s, t, j);
      assert i == j;
      assert |t| == |r|;
    }
  }

  lemma StrippedEnds(s: string, r: string, i: nat)
    requires StrippedAt(s, r, i) && r != []
    ensures s[i] == r[0] && s[i + |r| - 1] == r[|r| - 1]
  {
  }

  /** Stripping twice is stripping once. */
  lemma StripIdempotent(s: string)
    ensures Strip(Strip(s)) == Strip(s)
  {
    var r := Strip(s);
    if r == [] {
      assert TrimStart(r) == [];
    } else {
      assert StrippedAt(r, r, 0);
      StripUnique(r, r, 0);
    }
  }

  /** The leading run of non-whitespace characters of `s`. */
  function Word(s: string): (w: string)
    ensures |w| <= |s| && w == s[..|w|]
    ensures NoSpace(w)
    ensures |w| < |s| ==> IsSpace(s[|w|])
    ensures s != [] && !IsSpace(s[0]) ==> w != []
  {
    if s == [] || IsSpace(s[0]) then [] else [s[0]] + Word(s[1..])
  }

  /** `s.split()`: the maximal runs of non-whitespace characters, in order. */
  function Split(s: string): (r: seq<string>)
    ensures forall i :: 0 <= i < |r| ==> r[i] != [] && NoSpace(r[i])
    decreases |s|
  {
    var t := TrimStart(s);
    if t == [] then [] else
      var w := Word(t);
      var rest := Split(t[|w|..]);
      PrependWord(w, rest);
      [w] + rest
  }

  lemma PrependWord(w: string, ws: seq<string>)
    requires w != [] && NoSpace(w)
    requires forall i :: 0 <= i < |ws| ==> ws[i] != [] && NoSpace(ws[i])
    ensures forall i :: 0 <= i < |[w] + ws| ==> ([w] + ws)[i] != [] && NoSpace(([w] + ws)[i])
  {
    forall i | 0 <= i < |[w] + ws|
      ensures ([w] + ws)[i] != [] && NoSpace(([w] + ws)[i])
    {
      if i > 0 {
        assert ([w] + ws)[i] == ws[i - 1];
      }
    }
  }

  /** The words of `ws` joined by single spaces, `" ".join(ws)`. */
  function Join(ws: seq<string>): string {
    if |ws| == 0 then []
    else if |ws| == 1 then ws[0]
    else ws[0] + " " + Join(ws[1..])
  }

  lemma {:induction false} WordOfPrefix(w: string, rest: string)
    requires w != [] && NoSpace(w)
    requires rest == [] || IsSpace(rest[0])
    ensures Word(w + rest) == w
    decreases |w|
  {
    assert (w + rest)[0] == w[0];
    assert (w + rest)[1..] == w[1..] + rest;
    if |w| > 1 {
      WordOfPrefix(w[1..], rest);
    } else {
      assert w[1..] + rest == rest;
    }
  }

  /** A word followed by nothing or by whitespace is split off as the first word. */
  lemma WordThenSplit(w: string, rest: string)
    requires w != [] && NoSpace(w)
    requires rest == [] || IsSpace(rest[0])
    ensures Split(w + rest) == [w] + Split(rest)
  {
    var s := w + rest;
    assert s[0] == w[0];
    assert TrimStart(s) == s;
    WordOfPrefix(w, rest);
    assert s[|w|..] == rest;
  }

  /** Leading whitespace does not change the split. */
  lemma SpaceThenSplit(c: char, s: string)
    requires IsSpace(c)
    ensures Split([c] + s) == Split(s)
  {
    var cs := [c] + s;
    assert cs[0] == c && cs[1..] == s;
    assert TrimStart(cs) == TrimStart(s);
  }

  /** Splitting words joined by single spaces gives the words back. */
  lemma {:induction false} SplitJoin(ws: seq<string>)
    requires forall i :: 0 <= i < |ws| ==> ws[i] != [] && NoSpace(ws[i])
    ensures Split(Join(ws)) == ws
  {
    if |ws| == 0 {
      SplitBlank([]);
    } else if |ws| == 1 {
      SingleWord(ws[0]);
    } else {
      SplitJoin(ws[1..]);
      SplitJoinStep(ws);
    }
  }

  lemma SingleWord(w: string)
    requires w != [] && NoSpace(w)
    ensures Split(w) == [w]
  {
    assert w + [] == w;
    WordOfPrefix(w, []);
    assert TrimStart(w) == w;
    assert w[|w|..] == [];
  }

  lemma SplitJoinStep(ws: seq<string>)
    requires |ws| > 1 && ws[0] != [] && NoSpace(ws[0])
    requires Split(Join(ws[1..])) == ws[1..]
    ensures Split(Join(ws)) == ws
  {
    var w, j := ws[0], Join(ws[1..]);
    JoinStep(ws);
    SpaceSeparated(w, j);
    assert ws == [w] + ws[1..];
  }

  lemma JoinStep(ws: seq<string>)
    requires |ws| > 1
    ensures Join(ws) == ws[0] + ([' '] + Join(ws[1..]))
  {
  }

  /** A word, one space, and the rest: the word is split off and the space dropped. */
  lemma SpaceSeparated(w: string, j: string)
    requires w != [] && NoSpace(w)
    ensures Split(w + ([' '] + j)) == [w] + Split(j)
  {
    WordThenSplit(w, [' '] + j);
    SpaceThenSplit(' ', j);
  }

  /** A string without lower-case letters splits into words without lower-case letters. */
  lemma {:induction false} SplitNoLower(s: string)
    requires forall k :: 0 <= k < |s| ==> !IsLower(s[k])
    ensures forall i, k :: 0 <= i < |Split(s)| && 0 <= k < |Split(s)[i]| ==> !IsLower(Split(s)[i][k])
    decreases |s|
  {
    var t := TrimStart(s);
    if t != [] {
      var w := Word(t);
      var rest := t[|w|..];
      forall k | 0 <= k < |t| ensures !IsLower(t[k]) {
        assert t[k] == s[|s| - |t| + k];
      }
      forall k | 0 <= k < |rest| ensures !IsLower(rest[k]) {
        assert rest[k] == t[|w| + k];
      }
      SplitNoLower(rest);
      forall k | 0 <= k < |w| ensures !IsLower(w[k]) {
        assert w[k] == t[k];
      }
      PrependNoLower(w, Split(rest));
      assert Split(s) == [w] + Split(rest);
    }
  }

  lemma PrependNoLower(w: string, ws: seq<string>)
    requires forall k :: 0 <= k < |w| ==> !IsLower(w[k])
    requires forall i, k :: 0 <= i < |ws| && 0 <= k < |ws[i]| ==> !IsLower(ws[i][k])
    ensures forall i, k :: 0 <= i < |[w] + ws| && 0 <= k < |([w] + ws)[i]| ==> !IsLower(([w] + ws)[i][k])
  {
    forall i, k | 0 <= i < |[w] + ws| && 0 <= k < |([w] + ws)[i]| ensures !IsLower(([w] + ws)[i][k]) {
      if i > 0 {
        assert ([w] + ws)[i] == ws[i - 1];
      }
    }
  }

  /** A string that only holds whitespace splits into no words. */
  lemma {:induction false} SplitBlank(s: string)
    requires forall i :: 0 <= i < |s| ==> IsSpace(s[i])
    ensures Split(s) == []
  {
    assert TrimStart(s) == [];
  }
}
