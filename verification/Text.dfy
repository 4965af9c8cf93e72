/** The string operations the model needs, over characters. */
module Text {

  function LowerAscii(c: char): (r: char) {
    if 'A' <= c <= 'Z' then (c as int + 32) as char else c
  }

  /** Lower-casing, exact for comparison with an ASCII word: the Kelvin sign and the dotted capital I
      are the only other characters whose lower case is an ASCII letter. */
  function LowerChar(c: char): (r: char) {
    if c == '\U{212A}' then 'k' else if c == '\U{130}' then 'i' else LowerAscii(c)
  }

  function Lower(s: string): (r: string)
    ensures |r| == |s|
    ensures forall i :: 0 <= i < |s| ==> r[i] == LowerChar(s[i])
  {
    if s == "" then "" else [LowerChar(s[0])] + Lower(s[1..])
  }

  /** Simple case folding against an ASCII name: the Kelvin sign and the long s are the only
      other characters that fold onto ASCII letters. */
  function FoldChar(c: char): (r: char) {
    if c == '\U{212A}' then 'k' else if c == '\U{17F}' then 's' else LowerAscii(c)
  }

  predicate EqualFold(a: string, b: string) {
    |a| == |b| && forall i :: 0 <= i < |a| ==> FoldChar(a[i]) == FoldChar(b[i])
  }

  // ---- letter case, character by character ----

  predicate IsLower(c: char) { 'a' <= c <= 'z' }
  predicate IsUpper(c: char) { 'A' <= c <= 'Z' }

  /** An ASCII word without capital letters. */
  predicate LowerWord(w: string) {
    forall i :: 0 <= i < |w| ==> w[i] < '\U{80}' && !IsUpper(w[i])
  }

  /** `c` is the lower-case ASCII character `l`, its capital, or the other character that lower-cases to it. */
  predicate Lowers(c: char, l: char) {
    || c == l
    || (IsLower(l) && IsUpper(c) && l as int - c as int == 'a' as int - 'A' as int)
    || (l == 'k' && c == '\U{212A}') || (l == 'i' && c == '\U{130}')
  }

  lemma LowerCharIs(c: char, l: char)
    requires l < '\U{80}' && !IsUpper(l)
    ensures LowerChar(c) == l <==> Lowers(c, l)
  {
  }

  /** Lower-casing gives an ASCII word exactly when each character lower-cases to the word's. */
  lemma LowerIs(k: string, w: string)
    requires LowerWord(w)
    ensures Lower(k) == w <==> |k| == |w| && forall i :: 0 <= i < |w| ==> Lowers(k[i], w[i])
  {
    var r := Lower(k);
    if |k| == |w| {
      forall i | 0 <= i < |w|
        ensures r[i] == w[i] <==> Lowers(k[i], w[i])
      {
        LowerCharIs(k[i], w[i]);
      }
      assert r == w <==> forall i :: 0 <= i < |w| ==> r[i] == w[i];
    }
  }

  /** `c` is the ASCII character `n`, in either case, or the other character that folds onto it. */
  predicate Folds(c: char, n: char) {
    || c == n
    || (IsLower(n) && IsUpper(c) && n as int - c as int == 'a' as int - 'A' as int)
    || (IsUpper(n) && IsLower(c) && c as int - n as int == 'a' as int - 'A' as int)
    || (n in "kK" && c == '\U{212A}') || (n in "sS" && c == '\U{17F}')
  }

  /** Names are equal under folding exactly when they are letter by letter, whatever the case. */
  lemma EqualFoldIs(k: string, name: string)
    requires forall i :: 0 <= i < |name| ==> name[i] < '\U{80}'
    ensures EqualFold(k, name) <==> |k| == |name| && forall i :: 0 <= i < |name| ==> Folds(k[i], name[i])
  {
    if |k| == |name| {
      forall i | 0 <= i < |name|
        ensures FoldChar(k[i]) == FoldChar(name[i]) <==> Folds(k[i], name[i])
      {
        assert name[i] < '\U{80}';
      }
    }
  }

  /** strings.IndexByte: the first occurrence, or -1. */
  function IndexOf(s: string, c: char): (i: int)
    ensures -1 <= i < |s|
  {
    if s == "" then -1
    else if s[0] == c then 0
    else
      var j := IndexOf(s[1..], c);
      if j == -1 then -1 else j + 1
  }

  lemma {:induction false} IndexOfMeans(s: string, c: char)
    ensures var i := IndexOf(s, c);
            && (i >= 0 ==> s[i] == c)
            && forall k :: 0 <= k < (if i >= 0 then i else |s|) ==> s[k] != c
  {
    if s != "" && s[0] != c {
      IndexOfMeans(s[1..], c);
      assert forall k :: 1 <= k < |s| ==> s[k] == s[1..][k - 1];
    }
  }

  /** strings.Split on a one-character separator. */
  function SplitOn(s: string, sep: char): (parts: seq<string>)
    ensures |parts| > 0
    decreases |s|
  {
    var i := IndexOf(s, sep);
    if i == -1 then [s] else [s[..i]] + SplitOn(s[i + 1..], sep)
  }

  function JoinOn(parts: seq<string>, sep: char): (s: string) {
    if parts == [] then "" else if |parts| == 1 then parts[0] else parts[0] + [sep] + JoinOn(parts[1..], sep)
  }

  lemma JoinOnStep(head: string, rest: seq<string>, sep: char)
    requires rest != []
    ensures JoinOn([head] + rest, sep) == head + [sep] + JoinOn(rest, sep)
  {
    var parts := [head] + rest;
    assert parts[0] == head && parts[1..] == rest;
  }

  /** The parts joined again are the string. */
  lemma {:induction false} JoinOfSplitOn(s: string, sep: char)
    ensures JoinOn(SplitOn(s, sep), sep) == s
    decreases |s|
  {
    var i := IndexOf(s, sep);
    if i != -1 {
      var head, tail := s[..i], s[i + 1..];
      IndexOfMeans(s, sep);
      JoinOfSplitOn(tail, sep);
      JoinOnStep(head, SplitOn(tail, sep), sep);
      assert s == head + [sep] + tail;
    }
  }

  /** A stretch of the string between two separators, or an end of it. */
  ghost predicate Cell(s: string, sep: char, i: nat, j: nat) {
    && i <= j <= |s| && (i == 0 || s[i - 1] == sep) && (j == |s| || s[j] == sep)
    && forall k :: i <= k < j ==> s[k] != sep
  }

  ghost predicate IsCell(s: string, sep: char, p: string) {
    exists i: nat, j: nat :: Cell(s, sep, i, j) && s[i..j] == p
  }

  lemma CellBehind(s: string, sep: char, at: nat, i: nat, j: nat)
    requires at < |s| && s[at] == sep && i <= j <= |s| - at - 1
    ensures Cell(s[at + 1..], sep, i, j) <==> Cell(s, sep, at + 1 + i, at + 1 + j)
    ensures s[at + 1..][i..j] == s[at + 1 + i..at + 1 + j]
  {
    var back := s[at + 1..];
    assert forall k :: 0 <= k < |back| ==> back[k] == s[at + 1 + k];
    if Cell(back, sep, i, j) {
      forall k | at + 1 + i <= k < at + 1 + j
        ensures s[k] != sep
      {
        assert back[k - at - 1] == s[k];
      }
    }
  }

  lemma CellsBehind(s: string, sep: char, at: nat, p: string)
    requires at < |s| && s[at] == sep
    ensures IsCell(s[at + 1..], sep, p) <==> exists i: nat, j: nat :: i > at && Cell(s, sep, i, j) && s[i..j] == p
  {
    var back := s[at + 1..];
    if IsCell(back, sep, p) {
      var i: nat, j: nat :| Cell(back, sep, i, j) && back[i..j] == p;
      CellBehind(s, sep, at, i, j);
    }
    if i: nat, j: nat :| i > at && Cell(s, sep, i, j) && s[i..j] == p {
      CellBehind(s, sep, at, i - at - 1, j - at - 1);
    }
  }

  /** The parts of a split are the stretches between separators. */
  lemma {:induction false} PartsAreCells(s: string, sep: char, p: string)
    ensures p in SplitOn(s, sep) <==> IsCell(s, sep, p)
    decreases |s|
  {
    var at := IndexOf(s, sep);
    IndexOfMeans(s, sep);
    if at == -1 {
      assert Cell(s, sep, 0, |s|) && s[0..|s|] == s;
    } else {
      PartsAreCells(s[at + 1..], sep, p);
      CellsBehind(s, sep, at, p);
      FirstCell(s, sep, at);
    }
  }

  lemma FirstCell(s: string, sep: char, at: nat)
    requires at < |s| && s[at] == sep && forall k :: 0 <= k < at ==> s[k] != sep
    ensures Cell(s, sep, 0, at) && s[0..at] == s[..at]
    ensures forall i: nat, j: nat :: Cell(s, sep, i, j) ==> i > at || (i == 0 && j == at)
  {
  }
}
