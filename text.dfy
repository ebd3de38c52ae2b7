/** ASCII models of the Python `str` operations the intent router relies on:
    `strip`, `lower`, `title`, `capitalize`, `split`, `join`, `in` and `find`. */
module Text {

  /** Python's `str.isspace` restricted to ASCII: space, `\t` `\n` `\v` `\f` `\r`
      and the four separators 0x1C-0x1F. */
  predicate IsSpace(c: char) {
    c == ' ' || 9 <= c as int <= 13 || 28 <= c as int <= 31
  }

  predicate IsUpper(c: char) { 'A' <= c <= 'Z' }

  predicate IsLower(c: char) { 'a' <= c <= 'z' }

  /** The ASCII cased characters. */
  predicate IsLetter(c: char) { IsUpper(c) || IsLower(c) }

  function LowerChar(c: char): (d: char)
    ensures IsUpper(c) ==> IsLower(d) && d as int == c as int + 32
    ensures !IsUpper(c) ==> d == c
  {
    if IsUpper(c) then (c as int + 32) as char else c
  }

  function UpperChar(c: char): (d: char)
    ensures IsLower(c) ==> IsUpper(d) && d as int == c as int - 32
    ensures !IsLower(c) ==> d == c
  {
    if IsLower(c) then (c as int - 32) as char else c
  }

  // ---------------------------------------------------------------- strip

  /** How many whitespace characters `s` starts with. */
  function LeadingSpace(s: string): (k: nat)
    ensures k <= |s|
  {
    if s != [] && IsSpace(s[0]) then 1 + LeadingSpace(s[1..]) else 0
  }

  /** How many whitespace characters `s` ends with. */
  function TrailingSpace(s: string): (k: nat)
    ensures k <= |s|
  {
    if s != [] && IsSpace(s[|s| - 1]) then 1 + TrailingSpace(s[..|s| - 1]) else 0
  }

  /** `LeadingSpace` counts exactly the whitespace run at the front. */
  lemma {:induction false} LeadingSpaceSpec(s: string)
    ensures forall i :: 0 <= i < LeadingSpace(s) ==> IsSpace(s[i])
    ensures LeadingSpace(s) < |s| ==> !IsSpace(s[LeadingSpace(s)])
  {
    if s != [] && IsSpace(s[0]) {
      LeadingSpaceSpec(s[1..]);
    }
  }

  /** `TrailingSpace` counts exactly the whitespace run at the back. */
  lemma {:induction false} TrailingSpaceSpec(s: string)
    ensures forall i :: |s| - TrailingSpace(s) <= i < |s| ==> IsSpace(s[i])
    ensures TrailingSpace(s) < |s| ==> !IsSpace(s[|s| - TrailingSpace(s) - 1])
  {
    if s != [] && IsSpace(s[|s| - 1]) {
      TrailingSpaceSpec(s[..|s| - 1]);
    }
  }

  /** Python's `s.strip()`. */
  function Strip(s: string): (r: string)
    ensures |r| <= |s|
  {
    var t := s[LeadingSpace(s)..];
    t[..|t| - TrailingSpace(t)]
  }

  /** `Strip` keeps an infix of `s`, starting after the leading whitespace. */
  lemma StripIsInfix(s: string)
    ensures LeadingSpace(s) + |Strip(s)| <= |s|
    ensures Strip(s) == s[LeadingSpace(s)..LeadingSpace(s) + |Strip(s)|]
  {
    var t := s[LeadingSpace(s)..];
    assert Strip(s) == t[..|t| - TrailingSpace(t)];
  }

  /** What `Strip` drops is whitespace, and what it keeps neither starts nor
      ends with whitespace. */
  lemma StripSpec(s: string)
    ensures LeadingSpace(s) + |Strip(s)| <= |s|
    ensures Strip(s) == s[LeadingSpace(s)..LeadingSpace(s) + |Strip(s)|]
    ensures forall i :: 0 <= i < LeadingSpace(s) ==> IsSpace(s[i])
    ensures forall i :: LeadingSpace(s) + |Strip(s)| <= i < |s| ==> IsSpace(s[i])
    ensures Strip(s) != [] ==> !IsSpace(Strip(s)[0]) && !IsSpace(Strip(s)[|Strip(s)| - 1])
  {
    var lead := LeadingSpace(s);
    var t := s[lead..];
    var r := Strip(s);
    StripIsInfix(s);
    LeadingSpaceSpec(s);
    TrailingSpaceSpec(t);
    assert r == t[..|t| - TrailingSpace(t)];
    forall i | lead + |r| <= i < |s|
      ensures IsSpace(s[i])
    {
      assert s[i] == t[i - lead];
    }
    if r != [] {
      assert r[0] == s[lead];
      assert r[|r| - 1] == t[|t| - TrailingSpace(t) - 1];
    }
  }

  // ---------------------------------------------------------------- case

  /** Python's `s.lower()` on ASCII. */
  function Lower(s: string): string {
    seq(|s|, i requires 0 <= i < |s| => LowerChar(s[i]))
  }

  /** `Title` once the character before `s` is known to be cased or not. */
  function TitleFrom(s: string, prevCased: bool): (r: string)
    ensures |r| == |s|
  {
    if s == [] then []
    else [if prevCased then LowerChar(s[0]) else UpperChar(s[0])] + TitleFrom(s[1..], IsLetter(s[0]))
  }

  /** Python's `s.title()` on ASCII: every character that follows a cased
      character is lower-cased, every other one upper-cased. */
  function Title(s: string): (r: string)
    ensures |r| == |s|
  {
    TitleFrom(s, false)
  }

  lemma {:induction false} TitleFromAt(s: string, prevCased: bool, i: nat)
    requires i < |s|
    ensures TitleFrom(s, prevCased)[i] ==
      if (if i == 0 then prevCased else IsLetter(s[i - 1])) then LowerChar(s[i]) else UpperChar(s[i])
  {
    if i > 0 {
      TitleFromAt(s[1..], IsLetter(s[0]), i - 1);
    }
  }

  /** Character by character, `Title` is Python's rule: a character after a
      cased one is lower-cased, any other is upper-cased. */
  lemma TitleAt(s: string, i: nat)
    requires i < |s|
    ensures Title(s)[i] == if i > 0 && IsLetter(s[i - 1]) then LowerChar(s[i]) else UpperChar(s[i])
  {
    TitleFromAt(s, false, i);
  }

  /** Python's `w.capitalize()` on ASCII: first character upper-cased, the rest lower-cased. */
  function Capitalize(w: string): (r: string)
    ensures |r| == |w|
    ensures w != [] ==> r[0] == UpperChar(w[0]) && r[1..] == Lower(w[1..])
  {
    if w == [] then [] else [UpperChar(w[0])] + Lower(w[1..])
  }

  // ---------------------------------------------------------------- split, join

  /** `Split` with the word read so far, `word`, still to be emitted. */
  function SplitFrom(s: string, word: string): seq<string> {
    if s == [] then (if word == [] then [] else [word])
    else if IsSpace(s[0]) then (if word == [] then [] else [word]) + SplitFrom(s[1..], [])
    else SplitFrom(s[1..], word + [s[0]])
  }

  /** Python's `s.split()`: the maximal runs of non-whitespace characters, in order. */
  function Split(s: string): seq<string> {
    SplitFrom(s, [])
  }

  /** `s` with every whitespace character removed. */
  function NonSpace(s: string): string {
    if s == [] then [] else (if IsSpace(s[0]) then [] else [s[0]]) + NonSpace(s[1..])
  }

  function Concat(words: seq<string>): string {
    if words == [] then [] else words[0] + Concat(words[1..])
  }

  predicate IsWord(w: string) {
    w != [] && forall i :: 0 <= i < |w| ==> !IsSpace(w[i])
  }

  lemma {:induction false} SplitFromWords(s: string, word: string)
    requires word == [] || IsWord(word)
    ensures forall w :: w in SplitFrom(s, word) ==> IsWord(w)
  {
    if s != [] {
      if IsSpace(s[0]) {
        SplitFromWords(s[1..], []);
      } else {
        SplitFromWords(s[1..], word + [s[0]]);
      }
    }
  }

  lemma ConcatCons(word: string, rest: seq<string>)
    ensures Concat([word] + rest) == word + Concat(rest)
  {
    assert ([word] + rest)[0] == word && ([word] + rest)[1..] == rest;
  }

  lemma {:induction false} SplitFromText(s: string, word: string)
    ensures Concat(SplitFrom(s, word)) == word + NonSpace(s)
  {
    if s == [] {
      if word != [] {
        ConcatCons(word, []);
      }
    } else if IsSpace(s[0]) {
      var rest := SplitFrom(s[1..], []);
      SplitFromText(s[1..], []);
      assert [] + NonSpace(s[1..]) == NonSpace(s[1..]) == NonSpace(s);
      if word == [] {
        assert SplitFrom(s, word) == rest;
      } else {
        assert SplitFrom(s, word) == [word] + rest;
        ConcatCons(word, rest);
      }
    } else {
      var x := NonSpace(s[1..]);
      SplitFromText(s[1..], word + [s[0]]);
      assert NonSpace(s) == [s[0]] + x;
      assert word + [s[0]] + x == word + ([s[0]] + x);
    }
  }

  /** The words `Split` returns are non-empty, contain no whitespace, and
      together hold every non-whitespace character of `s`, in order. */
  lemma SplitWords(s: string)
    ensures forall w :: w in Split(s) ==> IsWord(w)
    ensures Concat(Split(s)) == NonSpace(s)
  {
    SplitFromWords(s, []);
    SplitFromText(s, []);
  }

  /** Whitespace in front of the input is skipped by `Split`. */
  lemma {:induction false} SplitSkipsSpace(ws: string, x: string)
    requires forall k :: 0 <= k < |ws| ==> IsSpace(ws[k])
    ensures SplitFrom(ws + x, []) == SplitFrom(x, [])
  {
    if ws == [] {
      assert ws + x == x;
    } else {
      assert (ws + x)[0] == ws[0] && (ws + x)[1..] == ws[1..] + x;
      SplitSkipsSpace(ws[1..], x);
    }
  }

  /** Non-whitespace characters are added to the word being read. */
  lemma {:induction false} SplitReadsWord(w: string, x: string, word: string)
    requires forall k :: 0 <= k < |w| ==> !IsSpace(w[k])
    ensures SplitFrom(w + x, word) == SplitFrom(x, word + w)
  {
    if w == [] {
      assert w + x == x && word + w == word;
    } else {
      assert (w + x)[0] == w[0] && (w + x)[1..] == w[1..] + x;
      SplitReadsWord(w[1..], x, word + [w[0]]);
      assert word + [w[0]] + w[1..] == word + w;
    }
  }

  /** `Split` of whitespace alone is empty. */
  lemma SplitBlank(ws: string)
    requires forall k :: 0 <= k < |ws| ==> IsSpace(ws[k])
    ensures Split(ws) == []
  {
    SplitSkipsSpace(ws, []);
    assert ws + [] == ws;
  }

  /** `Split` unfolds one word at a time: after leading whitespace `ws`, a
      word `w` that ends the input or is followed by whitespace is the first
      word, and the rest are the words of what follows. So the words are the
      maximal runs of non-whitespace characters. */
  lemma SplitUnfold(ws: string, w: string, rest: string)
    requires forall k :: 0 <= k < |ws| ==> IsSpace(ws[k])
    requires IsWord(w)
    requires rest == [] || IsSpace(rest[0])
    ensures Split(ws + w + rest) == [w] + Split(rest)
  {
    assert ws + w + rest == ws + (w + rest);
    SplitSkipsSpace(ws, w + rest);
    SplitReadsWord(w, rest, []);
    assert [] + w == w;
    if rest == [] {
      assert Split(rest) == [];
    } else {
      assert SplitFrom(rest, w) == [w] + SplitFrom(rest[1..], []);
      assert Split(rest) == SplitFrom(rest[1..], []);
    }
  }

  /** Python's `sep.join(xs)`. */
  function Join(sep: string, xs: seq<string>): string {
    if xs == [] then ""
    else if |xs| == 1 then xs[0]
    else xs[0] + sep + Join(sep, xs[1..])
  }

  function CapitalizeAll(words: seq<string>): (r: seq<string>)
    ensures |r| == |words|
    ensures forall i :: 0 <= i < |words| ==> r[i] == Capitalize(words[i])
  {
    if words == [] then [] else [Capitalize(words[0])] + CapitalizeAll(words[1..])
  }

  // ---------------------------------------------------------------- substring search

  /** `t` occurs in `s` starting at index `i`. */
  predicate OccursAt(s: string, t: string, i: nat) {
    i + |t| <= |s| && s[i..i + |t|] == t
  }

  /** Python's `t in s`. */
  predicate Contains(s: string, t: string) {
    exists i: nat :: i <= |s| && OccursAt(s, t, i)
  }

  function FindFrom(s: string, t: string, from: nat): (r: int)
    ensures r >= -1
    decreases |s| + 1 - from
  {
    if from + |t| > |s| then -1
    else if OccursAt(s, t, from) then from
    else FindFrom(s, t, from + 1)
  }

  /** `FindFrom` returns the first occurrence at or after `from`, or -1. */
  lemma {:induction false} FindFromSpec(s: string, t: string, from: nat)
    ensures var r := FindFrom(s, t, from);
      (r >= 0 ==> from <= r && OccursAt(s, t, r)) &&
      forall i: nat :: from <= i && (r < 0 || i < r) ==> !OccursAt(s, t, i)
    decreases |s| + 1 - from
  {
    if from + |t| <= |s| && !OccursAt(s, t, from) {
      FindFromSpec(s, t, from + 1);
    }
  }

  /** Python's `s.find(t)`: the first index at which `t` occurs in `s`, or -1. */
  function Find(s: string, t: string): (r: int)
    ensures r >= -1
    ensures r >= 0 <==> Contains(s, t)
  {
    FindFromSpec(s, t, 0);
    FindFrom(s, t, 0)
  }

  /** `Find` returns the first occurrence. */
  lemma FindSpec(s: string, t: string)
    ensures Find(s, t) >= 0 ==> OccursAt(s, t, Find(s, t))
    ensures forall i: nat :: i < Find(s, t) || (Find(s, t) < 0 && i <= |s|) ==> !OccursAt(s, t, i)
  {
    FindFromSpec(s, t, 0);
  }

  /** The empty string occurs in every string. */
  lemma EmptyOccursEverywhere(s: string)
    ensures Contains(s, "")
  {
    assert OccursAt(s, "", 0);
  }

  /** Python's slice `s[k:]` for `k >= 0`: empty once `k` passes the end. */
  function Drop(s: string, k: nat): (r: string)
    ensures k <= |s| ==> r == s[k..]
    ensures k > |s| ==> r == ""
  {
    if k <= |s| then s[k..] else ""
  }
}
