/** The Python built-in string operations that the data processor relies on:
    str.strip, str.split() and str.split(sep), str.join, the `in` operator on
    strings, str.replace, str.lower, str.isupper, str.startswith, str(int) and
    int(str). */
module PyStr {
  import opened Wrappers

  /** Python's str.isspace() for one character. */
  predicate IsSpace(c: char) {
    || c == ' '
    || '\t' <= c <= '\r'
    || '\U{1C}' <= c <= '\U{1F}'
    || c == '\U{85}' || c == '\U{A0}' || c == '\U{1680}'
    || '\U{2000}' <= c <= '\U{200A}'
    || c == '\U{2028}' || c == '\U{2029}' || c == '\U{202F}' || c == '\U{205F}' || c == '\U{3000}'
  }

  predicate NoSpace(s: string) {
    forall i :: 0 <= i < |s| ==> !IsSpace(s[i])
  }

  predicate AllSpace(s: string) {
    forall i :: 0 <= i < |s| ==> IsSpace(s[i])
  }

  // ---------------------------------------------------------------- strip

  /** Number of whitespace characters at the start of s. */
  function LeadingSpaces(s: string): (n: nat)
    ensures n <= |s|
    ensures forall i :: 0 <= i < n ==> IsSpace(s[i])
    ensures n < |s| ==> !IsSpace(s[n])
  {
    if s != [] && IsSpace(s[0]) then 1 + LeadingSpaces(s[1..]) else 0
  }

  /** Number of whitespace characters at the end of s. */
  function TrailingSpaces(s: string): (n: nat)
    ensures n <= |s|
    ensures forall i :: |s| - n <= i < |s| ==> IsSpace(s[i])
    ensures n < |s| ==> !IsSpace(s[|s| - n - 1])
  {
    if s != [] && IsSpace(s[|s| - 1]) then 1 + TrailingSpaces(s[..|s| - 1]) else 0
  }

  /** s.lstrip() */
  function StripStart(s: string): (r: string)
    ensures |r| <= |s| && r == s[|s| - |r|..]
    ensures forall i :: 0 <= i < |s| - |r| ==> IsSpace(s[i])
    ensures r != [] ==> !IsSpace(r[0])
  {
    s[LeadingSpaces(s)..]
  }

  /** s.strip(): what is left of s once the whitespace at both ends is
      removed: the piece of s that starts after its leading whitespace,
      with only whitespace after it, and that neither starts nor ends with
      whitespace. */
  function Strip(s: string): (r: string)
    ensures |r| <= |s|
    ensures r != [] ==> !IsSpace(r[0]) && !IsSpace(r[|r| - 1])
    ensures r == [] <==> AllSpace(s)
    ensures var a := LeadingSpaces(s);
      && a + |r| <= |s| && r == s[a..a + |r|]
      && (forall i :: a + |r| <= i < |s| ==> IsSpace(s[i]))
  {
    var a := LeadingSpaces(s);
    var t := s[a..];
    var b := TrailingSpaces(t);
    StripEnds(s, a, t, b);
    StripTail(s, a, t, b);
    StripEmpty(s, a, t, b);
    t[..|t| - b]
  }

  lemma StripEnds(s: string, a: nat, t: string, b: nat)
    requires a <= |s| && t == s[a..] && b <= |t|
    requires a < |s| ==> !IsSpace(s[a])
    requires b < |t| ==> !IsSpace(t[|t| - b - 1])
    ensures var r := t[..|t| - b];
      && a + |r| <= |s| && r == s[a..a + |r|]
      && (r != [] ==> !IsSpace(r[0]) && !IsSpace(r[|r| - 1]))
  {
    var r := t[..|t| - b];
    if r != [] {
      assert r[0] == t[0] == s[a];
      assert r[|r| - 1] == t[|t| - b - 1];
    }
  }

  lemma StripTail(s: string, a: nat, t: string, b: nat)
    requires a <= |s| && t == s[a..] && b <= |t|
    requires forall j :: |t| - b <= j < |t| ==> IsSpace(t[j])
    ensures forall i :: a + |t| - b <= i < |s| ==> IsSpace(s[i])
  {
    forall i | a + |t| - b <= i < |s|
      ensures IsSpace(s[i])
    {
      assert s[i] == t[i - a];
    }
  }

  lemma StripEmpty(s: string, a: nat, t: string, b: nat)
    requires a <= |s| && t == s[a..] && b <= |t|
    requires forall i :: 0 <= i < a ==> IsSpace(s[i])
    requires a < |s| ==> !IsSpace(s[a])
    requires forall j :: |t| - b <= j < |t| ==> IsSpace(t[j])
    ensures t[..|t| - b] == [] <==> AllSpace(s)
  {
    // t starts where the leading run of whitespace ends
    assert a < |s| ==> t[0] == s[a];
  }

  /** Text without whitespace at either end is its own strip. */
  lemma StripOfTrimmed(s: string)
    requires s != [] && !IsSpace(s[0]) && !IsSpace(s[|s| - 1])
    ensures Strip(s) == s
  {
    assert LeadingSpaces(s) == 0;
    assert TrailingSpaces(s) == 0;
  }

  // ---------------------------------------------------------------- split()

  /** Length of the leading run of non-whitespace characters of s. */
  function WordEnd(s: string): (n: nat)
    ensures n <= |s|
    ensures forall i :: 0 <= i < n ==> !IsSpace(s[i])
    ensures n < |s| ==> IsSpace(s[n])
  {
    if s == [] || IsSpace(s[0]) then 0 else 1 + WordEnd(s[1..])
  }

  /** s.split() with no argument: the maximal runs of non-whitespace
      characters of s, in order. */
  function Words(s: string): (ws: seq<string>)
    ensures forall k :: 0 <= k < |ws| ==> ws[k] != [] && NoSpace(ws[k])
    ensures ws == [] <==> AllSpace(s)
    decreases |s|
  {
    var t := StripStart(s);
    if t == [] then []
    else
      var n := WordEnd(t);
      var rest := Words(t[n..]);
      FirstWord(s, t, n);
      ConsWord(t[..n], rest);
      [t[..n]] + rest
  }

  /** The first run of non-whitespace after the leading whitespace of s is a
      word, so s is not all whitespace. */
  lemma FirstWord(s: string, t: string, n: nat)
    requires |t| <= |s| && t == s[|s| - |t|..] && t != [] && !IsSpace(t[0])
    requires n <= |t| && (forall i :: 0 <= i < n ==> !IsSpace(t[i]))
    requires n < |t| ==> IsSpace(t[n])
    ensures t[..n] != [] && NoSpace(t[..n]) && !AllSpace(s)
  {
    assert s[|s| - |t|] == t[0];
  }

  lemma ConsWord(w: string, rest: seq<string>)
    requires w != [] && NoSpace(w)
    requires forall k :: 0 <= k < |rest| ==> rest[k] != [] && NoSpace(rest[k])
    ensures forall k :: 0 <= k < |[w] + rest| ==> ([w] + rest)[k] != [] && NoSpace(([w] + rest)[k])
  {
    forall k | 0 < k < |[w] + rest|
      ensures ([w] + rest)[k] == rest[k - 1]
    {
    }
  }

  /** sep.join(ws) */
  function Join(sep: string, ws: seq<string>): string
  {
    if |ws| == 0 then ""
    else if |ws| == 1 then ws[0]
    else ws[0] + sep + Join(sep, ws[1..])
  }

  lemma {:induction false} WordEndOfWord(w: string, x: string)
    requires NoSpace(w)
    requires x == [] || IsSpace(x[0])
    ensures WordEnd(w + x) == |w|
  {
    if w != [] {
      assert (w + x)[1..] == w[1..] + x;
      WordEndOfWord(w[1..], x);
    } else {
      assert w + x == x;
    }
  }

  /** A first word followed by whitespace (or nothing) splits off as one word. */
  lemma WordsOfWordThen(w: string, x: string)
    requires w != [] && NoSpace(w)
    requires x == [] || IsSpace(x[0])
    ensures Words(w + x) == [w] + Words(x)
  {
    var s := w + x;
    assert s[0] == w[0];
    assert LeadingSpaces(s) == 0;
    assert StripStart(s) == s;
    WordEndOfWord(w, x);
    assert s[..|w|] == w;
    assert s[|w|..] == x;
  }

  /** Leading whitespace does not change the words. */
  lemma WordsOfSpaceThen(c: char, x: string)
    requires IsSpace(c)
    ensures Words([c] + x) == Words(x)
  {
    var s := [c] + x;
    assert s[1..] == x;
    assert LeadingSpaces(s) == 1 + LeadingSpaces(x);
    assert StripStart(s) == StripStart(x);
  }

  /** A word and one space split off the word. */
  lemma WordsOfWordSpace(w: string, rest: string)
    requires w != [] && NoSpace(w)
    ensures Words(w + " " + rest) == [w] + Words(rest)
  {
    var x := [' '] + rest;
    assert w + " " + rest == w + x;
    WordsOfWordThen(w, x);
    WordsOfSpaceThen(' ', rest);
  }

  /** A word, one space, and text whose words are ws[1..]: the words are ws. */
  lemma WordsOfWordSpaceThen(ws: seq<string>, s: string, rest: string)
    requires |ws| > 0 && ws[0] != [] && NoSpace(ws[0])
    requires s == ws[0] + " " + rest && Words(rest) == ws[1..]
    ensures Words(s) == ws
  {
    WordsOfWordSpace(ws[0], rest);
    assert ws == [ws[0]] + ws[1..];
  }

  /** Splitting " ".join(ws) on whitespace gives ws back, when every word is
      non-empty and holds no whitespace. */
  lemma {:induction false} WordsOfJoin(ws: seq<string>)
    requires forall k :: 0 <= k < |ws| ==> ws[k] != [] && NoSpace(ws[k])
    ensures Words(Join(" ", ws)) == ws
  {
    if |ws| == 1 {
      WordsOfWordThen(ws[0], []);
      assert ws[0] + [] == ws[0];
    } else if |ws| > 1 {
      WordsOfJoin(ws[1..]);
      WordsOfWordSpaceThen(ws, Join(" ", ws), Join(" ", ws[1..]));
    }
  }

  /** Two words joined by one space split back into the two. */
  lemma WordsOfPair(w0: string, w1: string)
    requires w0 != [] && NoSpace(w0) && w1 != [] && NoSpace(w1)
    ensures Words(w0 + " " + w1) == [w0, w1]
  {
    WordsOfJoin([w0, w1]);
    assert [w0, w1][1..] == [w1];
  }

  /** The first two of ws joined by one space split back into those two. */
  lemma WordsOfFirstPair(ws: seq<string>, s: string)
    requires |ws| >= 2 && forall k :: 0 <= k < |ws| ==> ws[k] != [] && NoSpace(ws[k])
    requires s == ws[0] + " " + ws[1]
    ensures Words(s) == ws[..2]
  {
    var w0, w1 := ws[0], ws[1];
    assert w0 != [] && NoSpace(w0);
    assert w1 != [] && NoSpace(w1);
    assert ws[..2] == [w0, w1];
    WordsOfPair(w0, w1);
  }

  /** The words after the first n, joined by spaces, split back into themselves. */
  lemma WordsOfJoinDrop(ws: seq<string>, n: nat)
    requires n <= |ws| && forall k :: 0 <= k < |ws| ==> ws[k] != [] && NoSpace(ws[k])
    ensures Words(Join(" ", ws[n..])) == ws[n..]
  {
    var tail := ws[n..];
    assert forall k :: 0 <= k < |tail| ==> tail[k] == ws[k + n];
    WordsOfJoin(tail);
  }

  // ---------------------------------------------------------------- find / in

  predicate OccursAt(s: string, sub: string, i: nat) {
    i + |sub| <= |s| && s[i..i + |sub|] == sub
  }

  function FindFrom(s: string, sub: string, i: nat): (r: int)
    requires i <= |s|
    ensures r == -1 || i <= r <= |s|
    ensures r >= 0 ==> OccursAt(s, sub, r)
    ensures forall j :: i <= j <= |s| && (r < 0 || j < r) ==> !OccursAt(s, sub, j)
    decreases |s| - i
  {
    if OccursAt(s, sub, i) then i
    else if i == |s| then -1
    else FindFrom(s, sub, i + 1)
  }

  /** s.find(sub): the least index at which sub occurs in s, or -1. */
  function Find(s: string, sub: string): (r: int)
    ensures -1 <= r <= |s|
    ensures r >= 0 ==> OccursAt(s, sub, r)
    ensures forall i :: 0 <= i <= |s| && (r < 0 || i < r) ==> !OccursAt(s, sub, i)
  {
    FindFrom(s, sub, 0)
  }

  /** `sub in s` */
  predicate Contains(s: string, sub: string)
    ensures Contains(s, sub) <==> exists i :: 0 <= i <= |s| && OccursAt(s, sub, i)
  {
    Find(s, sub) >= 0
  }

  lemma OccursInPrefix(s: string, n: nat, sub: string, k: nat)
    requires n <= |s| && OccursAt(s[..n], sub, k)
    ensures OccursAt(s, sub, k)
  {
    assert s[..n][k..k + |sub|] == s[k..k + |sub|];
  }

  lemma OccursInSuffix(s: string, n: nat, sub: string, k: nat)
    requires n <= |s| && OccursAt(s[n..], sub, k)
    ensures OccursAt(s, sub, n + k)
  {
    assert s[n..][k..k + |sub|] == s[n + k..n + k + |sub|];
  }

  /** A one-character pattern occurs exactly where the character does. */
  lemma ContainsChar(s: string, c: char)
    ensures Contains(s, [c]) <==> c in s
  {
    if c in s {
      var i :| 0 <= i < |s| && s[i] == c;
      assert OccursAt(s, [c], i);
    }
    if Contains(s, [c]) {
      var i :| 0 <= i <= |s| && OccursAt(s, [c], i);
      assert s[i..i + 1][0] == s[i];
    }
  }

  // ---------------------------------------------------------------- split(sep)

  /** No occurrence of sub in s before index n means none in s[..n]. */
  lemma NoneInPrefix(s: string, sub: string, n: nat)
    requires sub != [] && n <= |s|
    requires forall k :: 0 <= k < n ==> !OccursAt(s, sub, k)
    ensures !Contains(s[..n], sub)
  {
    forall k | 0 <= k <= n && OccursAt(s[..n], sub, k)
      ensures false
    {
      OccursInPrefix(s, n, sub, k);
    }
  }

  /** The first two fields of s.split(sep) when sep occurs in s: the text
      before the first occurrence, and the text after it up to the next
      occurrence (searched from the end of the first) or to the end of s. */
  function SplitTwo(s: string, sep: string): (parts: (string, string))
    requires sep != [] && Contains(s, sep)
    ensures |parts.0| + |sep| + |parts.1| <= |s|
    ensures s[..|parts.0| + |sep| + |parts.1|] == parts.0 + sep + parts.1
    ensures !Contains(parts.0, sep) && !Contains(parts.1, sep)
    ensures |parts.0| + |sep| + |parts.1| == |s| || OccursAt(s, sep, |parts.0| + |sep| + |parts.1|)
    ensures Find(s, sep) == |parts.0|
  {
    var i := Find(s, sep);
    var rest := s[i + |sep|..];
    var j := Find(rest, sep);
    var second := if j < 0 then rest else rest[..j];
    NoneInPrefix(s, sep, i);
    SecondField(s, sep, i, rest, j, second);
    JoinedFields(s, sep, i, second);
    (s[..i], second)
  }

  lemma SecondField(s: string, sep: string, i: nat, rest: string, j: int, second: string)
    requires sep != [] && i + |sep| <= |s| && rest == s[i + |sep|..]
    requires j == Find(rest, sep)
    requires second == if j < 0 then rest else rest[..j]
    ensures !Contains(second, sep)
    ensures i + |sep| + |second| == |s| || OccursAt(s, sep, i + |sep| + |second|)
  {
    if j >= 0 {
      NoneInPrefix(rest, sep, j);
      OccursInSuffix(s, i + |sep|, sep, j);
    } else {
      assert !Contains(rest, sep);
    }
  }

  lemma JoinedFields(s: string, sep: string, i: nat, second: string)
    requires OccursAt(s, sep, i)
    requires i + |sep| + |second| <= |s| && second == s[i + |sep|..i + |sep| + |second|]
    ensures s[..i + |sep| + |second|] == s[..i] + sep + second
  {
    assert s[i..i + |sep|] == sep;
  }

  /** A string made of a first field, the separator and a second field that
      does not hold it splits into exactly those two fields, when the first
      occurrence is the one after the first field. */
  lemma SplitTwoAt(s: string, sep: string, a: string, b: string)
    requires sep != [] && s == a + sep + b
    requires Find(s, sep) == |a| && !Contains(b, sep)
    ensures Contains(s, sep) && SplitTwo(s, sep) == (a, b)
  {
    assert s[..|a|] == a;
    assert s[|a| + |sep|..] == b;
  }

  /** sub cannot occur in s before n when the character at offset d of sub
      is missing from s up to n + d. */
  lemma NoOccurrenceBefore(s: string, sub: string, n: nat, d: nat)
    requires d < |sub|
    requires forall i :: 0 <= i < n + d && i < |s| ==> s[i] != sub[d]
    ensures forall k :: 0 <= k < n ==> !OccursAt(s, sub, k)
  {
    forall k | 0 <= k < n
      ensures !OccursAt(s, sub, k)
    {
      if k + |sub| <= |s| {
        assert s[k..k + |sub|][d] == s[k + d] != sub[d];
      }
    }
  }

  /** sub does not occur in s when one of its characters is not in s. */
  lemma NotContainedForChar(s: string, sub: string, d: nat)
    requires d < |sub| && sub[d] !in s
    ensures !Contains(s, sub)
  {
    forall k | 0 <= k <= |s|
      ensures !OccursAt(s, sub, k)
    {
      if k + |sub| <= |s| {
        assert s[k..k + |sub|][d] == s[k + d] != sub[d];
      }
    }
  }

  // ---------------------------------------------------------------- replace

  /** s.replace(target, repl): every non-overlapping occurrence of target,
      scanning from the left, replaced by repl. */
  function Replace(s: string, target: string, repl: string): (r: string)
    requires target != []
    ensures !Contains(s, target) ==> r == s
    decreases |s|
  {
    var i := Find(s, target);
    if i < 0 then s else s[..i] + repl + Replace(s[i + |target|..], target, repl)
  }

  /** The first occurrence of a character found: it is there, and not before. */
  lemma FindChar(s: string, c: char)
    requires Find(s, [c]) >= 0
    ensures s[Find(s, [c])] == c && c !in s[..Find(s, [c])]
  {
    var i := Find(s, [c]);
    assert s[i..i + 1][0] == s[i];
    forall k | 0 <= k < i
      ensures s[..i][k] != c
    {
      assert !OccursAt(s, [c], k);
      assert s[k..k + 1] == [s[k]];
    }
  }

  /** Replacing a character by text that does not hold it leaves none of it. */
  lemma ReplaceCharRemovesIt(s: string, c: char, repl: string)
    requires c !in repl
    ensures c !in Replace(s, [c], repl)
  {
    ReplaceOfChar(s, c, repl);
    ReplaceCharDrops(s, c, repl);
  }

  /** The reference for replacing one character: each c becomes t, every
      other character is kept, in order. */
  function ReplaceChar(s: string, c: char, t: string): string
    decreases |s|
  {
    if s == [] then [] else (if s[0] == c then t else [s[0]]) + ReplaceChar(s[1..], c, t)
  }

  lemma {:induction false} ReplaceCharAppend(a: string, b: string, c: char, t: string)
    ensures ReplaceChar(a + b, c, t) == ReplaceChar(a, c, t) + ReplaceChar(b, c, t)
    decreases |a|
  {
    if a == [] {
      assert a + b == b;
    } else {
      assert (a + b)[1..] == a[1..] + b;
      ReplaceCharAppend(a[1..], b, c, t);
    }
  }

  lemma {:induction false} ReplaceCharWithout(s: string, c: char, t: string)
    requires c !in s
    ensures ReplaceChar(s, c, t) == s
    decreases |s|
  {
    if s != [] {
      ReplaceCharWithout(s[1..], c, t);
    }
  }

  lemma {:induction false} ReplaceCharDrops(s: string, c: char, t: string)
    requires c !in t
    ensures c !in ReplaceChar(s, c, t)
    decreases |s|
  {
    if s != [] {
      ReplaceCharDrops(s[1..], c, t);
    }
  }

  /** s.replace(c, t) for a one-character target is the per-character
      replacement: each occurrence of c becomes t and the rest is kept. */
  lemma {:induction false} ReplaceOfChar(s: string, c: char, t: string)
    ensures Replace(s, [c], t) == ReplaceChar(s, c, t)
    decreases |s|
  {
    var i := Find(s, [c]);
    ContainsChar(s, c);
    if i < 0 {
      ReplaceCharWithout(s, c, t);
    } else {
      FindChar(s, c);
      var pre, rest := s[..i], s[i + 1..];
      assert s == pre + [c] + rest;
      assert ReplaceChar([c], c, t) == t by {
        assert [c][1..] == [];
      }
      calc {
        ReplaceChar(s, c, t);
        { ReplaceCharAppend(pre + [c], rest, c, t); }
        ReplaceChar(pre + [c], c, t) + ReplaceChar(rest, c, t);
        { ReplaceCharAppend(pre, [c], c, t); ReplaceCharWithout(pre, c, t); }
        pre + t + ReplaceChar(rest, c, t);
        { ReplaceOfChar(rest, c, t); }
        pre + t + Replace(rest, [c], t);
        Replace(s, [c], t);
      }
    }
  }

  // ---------------------------------------------------------------- case

  predicate IsUpperChar(c: char) { 'A' <= c <= 'Z' }

  predicate IsLowerChar(c: char) { 'a' <= c <= 'z' }

  function LowerChar(c: char): (d: char)
    ensures !IsUpperChar(d)
  {
    if IsUpperChar(c) then (c as int + 32) as char else c
  }

  /** s.lower(): each letter replaced by its lower-case form. */
  function Lower(s: string): (r: string)
    ensures |r| == |s|
    ensures forall i :: 0 <= i < |s| ==> r[i] == LowerChar(s[i])
  {
    if s == [] then [] else [LowerChar(s[0])] + Lower(s[1..])
  }

  /** s.isupper(): at least one cased character and no lower-case one. */
  predicate IsUpper(s: string) {
    && (exists i :: 0 <= i < |s| && IsUpperChar(s[i]))
    && (forall i :: 0 <= i < |s| ==> !IsLowerChar(s[i]))
  }

  /** s.startswith(p) */
  predicate StartsWith(s: string, p: string) {
    |p| <= |s| && s[..|p|] == p
  }

  // ---------------------------------------------------------------- numbers

  predicate IsDigit(c: char) { '0' <= c <= '9' }

  predicate AllDigits(s: string) {
    forall i :: 0 <= i < |s| ==> IsDigit(s[i])
  }

  function DigitChar(d: nat): (c: char)
    requires d < 10
    ensures IsDigit(c) && c as int - '0' as int == d
  {
    ('0' as int + d) as char
  }

  /** str(n) for a non-negative int: its decimal digits, with no leading zero. */
  function NatToStr(n: nat): (r: string)
    ensures |r| >= 1 && AllDigits(r)
    ensures r[0] == '0' ==> n == 0
  {
    if n < 10 then [DigitChar(n)] else NatToStr(n / 10) + [DigitChar(n % 10)]
  }

  /** str(i) for an int. */
  function IntToStr(i: int): string
  {
    if i < 0 then "-" + NatToStr(-i) else NatToStr(i)
  }

  /** The value of a string of decimal digits. */
  function DigitsValue(s: string): nat
    requires AllDigits(s)
  {
    if s == [] then 0 else 10 * DigitsValue(s[..|s| - 1]) + (s[|s| - 1] as int - '0' as int)
  }

  /** A run of digits in which single underscores may separate digits, the
      form Python's int() accepts after an optional sign. */
  predicate IsDigitRun(s: string) {
    && |s| > 0 && IsDigit(s[0]) && IsDigit(s[|s| - 1])
    && (forall i :: 0 <= i < |s| ==> IsDigit(s[i]) || s[i] == '_')
    && (forall i :: 0 <= i < |s| - 1 ==> !(s[i] == '_' && s[i + 1] == '_'))
  }

  function WithoutUnderscores(s: string): (r: string)
    ensures (forall i :: 0 <= i < |s| ==> IsDigit(s[i]) || s[i] == '_') ==> AllDigits(r)
    ensures '_' !in s ==> r == s
    ensures '_' !in r
  {
    if s == [] then []
    else (if s[0] == '_' then [] else [s[0]]) + WithoutUnderscores(s[1..])
  }

  /** Removing underscores works piece by piece: it distributes over
      concatenation. */
  lemma {:induction false} WithoutUnderscoresAppend(a: string, b: string)
    ensures WithoutUnderscores(a + b) == WithoutUnderscores(a) + WithoutUnderscores(b)
    decreases |a|
  {
    if a == [] {
      assert a + b == b;
    } else {
      assert (a + b)[1..] == a[1..] + b;
      WithoutUnderscoresAppend(a[1..], b);
    }
  }

  /** An underscore between two parts is dropped and both parts are kept, so
      what remains is the non-underscore characters in their order. */
  lemma WithoutUnderscoresDrops(a: string, b: string)
    ensures WithoutUnderscores(a + "_" + b) == WithoutUnderscores(a) + WithoutUnderscores(b)
  {
    WithoutUnderscoresAppend(a + "_", b);
    WithoutUnderscoresAppend(a, "_");
    WithoutUnderscoresOfOne();
  }

  lemma WithoutUnderscoresOfOne()
    ensures WithoutUnderscores("_") == []
  {
    assert "_"[1..] == [];
  }

  /** int(s) for a str s; None where Python raises ValueError. */
  function ParseInt(s: string): Option<int>
  {
    ParseStripped(Strip(s))
  }

  /** int() after the surrounding whitespace is gone: an optional sign, then a digit run. */
  function ParseStripped(t: string): Option<int>
  {
    if t == [] then None
    else
      var body := if t[0] == '-' || t[0] == '+' then t[1..] else t;
      if !IsDigitRun(body) then None
      else
        var magnitude := DigitsValue(WithoutUnderscores(body));
        Some(if t[0] == '-' then 0 - magnitude else magnitude)
  }

  lemma {:induction false} DigitsValueOfNatToStr(n: nat)
    ensures DigitsValue(NatToStr(n)) == n
  {
    if n >= 10 {
      var p := NatToStr(n / 10);
      var s := p + [DigitChar(n % 10)];
      assert s[..|s| - 1] == p;
      DigitsValueOfNatToStr(n / 10);
    }
  }

  lemma ParseStrippedOfSignedDigits(s: string, negative: bool, digits: string)
    requires |digits| >= 1 && AllDigits(digits)
    requires s == (if negative then "-" else "") + digits
    ensures ParseStripped(s) == Some(if negative then 0 - DigitsValue(digits) else DigitsValue(digits))
  {
    assert '_' !in digits by {
      forall k | 0 <= k < |digits|
        ensures digits[k] != '_'
      {
        assert IsDigit(digits[k]);
      }
    }
    assert IsDigitRun(digits);
    if negative {
      assert s[0] == '-' && s[1..] == digits;
    } else {
      assert s == digits && IsDigit(s[0]);
    }
  }

  /** int() of an optional minus sign followed by decimal digits. */
  lemma ParseIntOfSignedDigits(s: string, negative: bool, digits: string)
    requires |digits| >= 1 && AllDigits(digits)
    requires s == (if negative then "-" else "") + digits
    ensures ParseInt(s) == Some(if negative then 0 - DigitsValue(digits) else DigitsValue(digits))
  {
    SignedDigitsTrimmed(s, negative, digits);
    ParseIntOfTrimmed(s);
    ParseStrippedOfSignedDigits(s, negative, digits);
  }

  lemma SignedDigitsTrimmed(s: string, negative: bool, digits: string)
    requires |digits| >= 1 && AllDigits(digits)
    requires s == (if negative then "-" else "") + digits
    ensures s != [] && !IsSpace(s[0]) && !IsSpace(s[|s| - 1])
  {
    assert s[|s| - 1] == digits[|digits| - 1];
    assert s[0] == '-' || s[0] == digits[0];
  }

  lemma ParseIntOfTrimmed(s: string)
    requires s != [] && !IsSpace(s[0]) && !IsSpace(s[|s| - 1])
    ensures ParseInt(s) == ParseStripped(s)
  {
    StripOfTrimmed(s);
  }

  /** int(str(i)) == i */
  lemma ParseIntOfIntToStr(i: int)
    ensures ParseInt(IntToStr(i)) == Some(i)
  {
    var n: nat := if i < 0 then -i else i;
    DigitsValueOfNatToStr(n);
    ParseIntOfSignedDigits(IntToStr(i), i < 0, NatToStr(n));
  }
}
