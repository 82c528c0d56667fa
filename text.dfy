/**
 * The parts of Python's `str` that the client relies on, written out so that
 * their edge cases are explicit: whitespace, `strip()`, `startswith()`,
 * `split(' ', 1)`, `split()`, `', '.join(...)`, `lower()`, `replace()` and
 * `str()` of a non-negative integer.
 */
module Text {

  /** Python's whitespace characters: what `str.isspace()` accepts, what the
      `\s` class of `re` matches in a str pattern, and what `strip()` and
      `split()` with no argument treat as separators. */
  predicate IsSpace(c: char) {
    var n := c as int;
    (0x09 <= n <= 0x0D) || (0x1C <= n <= 0x20) || n == 0x85 || n == 0xA0 || n == 0x1680
    || (0x2000 <= n <= 0x200A) || n == 0x2028 || n == 0x2029 || n == 0x202F
    || n == 0x205F || n == 0x3000
  }

  predicate NoSpace(s: string) {
    forall i :: 0 <= i < |s| ==> !IsSpace(s[i])
  }

  predicate IsDigit(c: char) {
    '0' <= c <= '9'
  }

  predicate AllDigits(s: string) {
    forall i :: 0 <= i < |s| ==> IsDigit(s[i])
  }

  /** `s.startswith(prefix)` */
  predicate StartsWith(s: string, prefix: string) {
    |prefix| <= |s| && s[..|prefix|] == prefix
  }

  /** `s.lstrip()`; `TrimLeftSuffix` states what it drops. */
  function TrimLeft(s: string): (r: string)
    decreases |s|
    ensures |r| <= |s|
    ensures r == [] || !IsSpace(r[0])
  {
    if |s| > 0 && IsSpace(s[0]) then TrimLeft(s[1..]) else s
  }

  /** `lstrip()` drops the leading whitespace and nothing else: what is left
      is a suffix, and everything in front of it is whitespace. */
  lemma {:induction false} TrimLeftSuffix(s: string)
    decreases |s|
    ensures var r := TrimLeft(s);
            && r == s[|s| - |r|..]
            && forall i :: 0 <= i < |s| - |r| ==> IsSpace(s[i])
  {
    if |s| > 0 && IsSpace(s[0]) {
      TrimLeftSuffix(s[1..]);
      assert s[1..][|s| - 1 - |TrimLeft(s)|..] == s[|s| - |TrimLeft(s)|..];
    }
  }

  /** `s.rstrip()`; `TrimRightPrefix` states what it drops. */
  function TrimRight(s: string): (r: string)
    decreases |s|
    ensures |r| <= |s|
    ensures r == [] || !IsSpace(r[|r| - 1])
  {
    if |s| > 0 && IsSpace(s[|s| - 1]) then TrimRight(s[..|s| - 1]) else s
  }

  /** `rstrip()` drops the trailing whitespace and nothing else. */
  lemma {:induction false} TrimRightPrefix(s: string)
    decreases |s|
    ensures var r := TrimRight(s);
            && r == s[..|r|]
            && forall i :: |r| <= i < |s| ==> IsSpace(s[i])
  {
    if |s| > 0 && IsSpace(s[|s| - 1]) {
      TrimRightPrefix(s[..|s| - 1]);
      assert s[..|s| - 1][..|TrimRight(s)|] == s[..|TrimRight(s)|];
    }
  }

  /** `s.strip()`: the result neither starts nor ends with whitespace, and a
      string that already does neither is returned as it is. */
  function Strip(s: string): (r: string)
    ensures |r| <= |s|
    ensures r == [] || (!IsSpace(r[0]) && !IsSpace(r[|r| - 1]))
    ensures (s == [] || (!IsSpace(s[0]) && !IsSpace(s[|s| - 1]))) ==> r == s
  {
    TrimRightPrefix(TrimLeft(s));
    TrimRight(TrimLeft(s))
  }

  /** `strip()` drops only surrounding whitespace: what is left is the middle
      of the line, and everything in front of it and after it is whitespace. */
  lemma StripKeepsMiddle(s: string)
    ensures var r := Strip(s); var i := |s| - |TrimLeft(s)|;
            && i + |r| <= |s| && r == s[i..i + |r|]
            && (forall j :: 0 <= j < i ==> IsSpace(s[j]))
            && (forall j :: i + |r| <= j < |s| ==> IsSpace(s[j]))
  {
    var t := TrimLeft(s);
    TrimLeftSuffix(s);
    TrimRightPrefix(t);
    var i := |s| - |t|;
    var r := Strip(s);
    assert r == t[..|r|];
    assert t[..|r|] == s[i..i + |r|];
    forall j | i + |r| <= j < |s|
      ensures IsSpace(s[j])
    {
      assert s[j] == t[j - i];
    }
  }

  /** `s.find(c)`: the index of the first `c`, or -1 when there is none. */
  function IndexOf(s: string, c: char): (i: int)
    ensures -1 <= i < |s|
    ensures i == -1 <==> c !in s
    ensures 0 <= i ==> s[i] == c && c !in s[..i]
  {
    if |s| == 0 then -1
    else if s[0] == c then 0
    else
      var j := IndexOf(s[1..], c);
      assert s[1..] == s[1..][..|s| - 1];
      if j == -1 then -1
      else
        assert s[..j + 1] == [s[0]] + s[1..][..j];
        j + 1
  }

  /** `s.split(' ', 1)`: one part when `s` has no space; otherwise the text
      before the first space and everything after it, unchanged. */
  function SplitOnce(s: string): (parts: seq<string>)
    ensures |parts| == 1 || |parts| == 2
    ensures |parts| == 1 <==> ' ' !in s
    ensures |parts| == 1 ==> parts[0] == s
    ensures |parts| == 2 ==> s == parts[0] + " " + parts[1] && ' ' !in parts[0]
  {
    var i := IndexOf(s, ' ');
    if i < 0 then [s]
    else
      assert s == s[..i] + " " + s[i + 1..];
      [s[..i], s[i + 1..]]
  }

  /** Python's `lower()` on one character, for the characters whose lower
      case is ASCII: `A`-`Z`, and the Kelvin sign, whose lower case is `k`. */
  function LowerChar(c: char): char {
    if 'A' <= c <= 'Z' then (c as int + 32) as char
    else if c as int == 0x212A then 'k'
    else c
  }

  /** No character that `lower()` would change: no ASCII capital and no Kelvin sign. */
  predicate Lowered(s: string) {
    forall i :: 0 <= i < |s| ==> !('A' <= s[i] <= 'Z') && s[i] as int != 0x212A
  }

  /** `s.lower()`: the result has no capital left, keeps the length, and maps
      every character on its own. */
  function Lower(s: string): (r: string)
    ensures |r| == |s| && forall i :: 0 <= i < |s| ==> r[i] == LowerChar(s[i])
    ensures Lowered(r)
  {
    seq(|s|, i requires 0 <= i < |s| => LowerChar(s[i]))
  }

  /** A string with no capital is its own lower case. */
  lemma LowerKeepsLowered(s: string)
    requires Lowered(s)
    ensures Lower(s) == s
  {
  }

  /** Lower-casing twice is lower-casing once. */
  lemma LowerIdempotent(s: string)
    ensures Lower(Lower(s)) == Lower(s)
  {
    LowerKeepsLowered(Lower(s));
  }

  /** Lower-casing keeps every character that is not a letter: a `/` or a
      space comes only from a `/` or a space. */
  lemma LowerKeepsPunctuation(s: string)
    ensures forall i :: 0 <= i < |s| && Lower(s)[i] == '/' ==> s[i] == '/'
    ensures forall i :: 0 <= i < |s| && Lower(s)[i] == ' ' ==> s[i] == ' '
  {
  }

  /** Length of the leading run of non-whitespace characters. */
  function TokenLength(s: string): (k: nat)
    ensures k <= |s|
    ensures NoSpace(s[..k])
    ensures k < |s| ==> IsSpace(s[k])
  {
    if |s| > 0 && !IsSpace(s[0]) then
      var k := 1 + TokenLength(s[1..]);
      assert s[..k] == [s[0]] + s[1..][..k - 1];
      k
    else 0
  }

  /** `s.split()`: the maximal runs of non-whitespace characters, in order;
      none is empty and none contains whitespace. */
  function Words(s: string): (ws: seq<string>)
    decreases |s|
    ensures forall k :: 0 <= k < |ws| ==> |ws[k]| > 0 && NoSpace(ws[k])
  {
    var t := TrimLeft(s);
    if |t| == 0 then []
    else
      var k := TokenLength(t);
      [t[..k]] + Words(t[k..])
  }

  /** `sep.join(ws)` */
  function JoinWith(ws: seq<string>, sep: string): string
  {
    if |ws| == 0 then ""
    else if |ws| == 1 then ws[0]
    else ws[0] + sep + JoinWith(ws[1..], sep)
  }

  lemma {:induction false} TokenLengthOfWord(w: string, tail: string)
    requires NoSpace(w)
    requires tail == [] || IsSpace(tail[0])
    ensures TokenLength(w + tail) == |w|
  {
    if w != [] {
      assert (w + tail)[1..] == w[1..] + tail;
      TokenLengthOfWord(w[1..], tail);
    }
  }

  /** A word followed by whitespace or nothing is the first word of the split. */
  lemma WordsOfWord(w: string, rest: string)
    requires |w| > 0 && NoSpace(w)
    requires rest == [] || IsSpace(rest[0])
    ensures Words(w + rest) == [w] + Words(rest)
  {
    var s := w + rest;
    assert TrimLeft(s) == s;
    TokenLengthOfWord(w, rest);
    assert s[..|w|] == w && s[|w|..] == rest;
  }

  /** Leading whitespace does not change the split. */
  lemma WordsSkipSpace(rest: string)
    ensures Words(" " + rest) == Words(rest)
  {
    assert (" " + rest)[1..] == rest;
    assert TrimLeft(" " + rest) == TrimLeft(rest);
  }

  /** Every character of `s` is whitespace. */
  predicate AllSpace(s: string) {
    forall i :: 0 <= i < |s| ==> IsSpace(s[i])
  }

  /** Words with runs of whitespace around them: `gaps[0] ws[0] gaps[1] ...
      ws[n-1] gaps[n]`.  Every string is of this form. */
  function Spaced(gaps: seq<string>, ws: seq<string>): string
    requires |gaps| == |ws| + 1
    decreases |ws|
  {
    if ws == [] then gaps[0] else gaps[0] + ws[0] + Spaced(gaps[1..], ws[1..])
  }

  /** Leading whitespace of any length does not change the split. */
  lemma {:induction false} WordsSkipGap(g: string, rest: string)
    requires AllSpace(g)
    ensures Words(g + rest) == Words(rest)
    decreases |g|
  {
    if g == [] {
      assert g + rest == rest;
    } else {
      assert (g + rest)[1..] == g[1..] + rest;
      assert TrimLeft(g + rest) == TrimLeft(g[1..] + rest);
      assert Words(g + rest) == Words(g[1..] + rest);
      WordsSkipGap(g[1..], rest);
    }
  }

  /** `split()` gives back exactly the words, whatever whitespace separates
      them (at least one character between two words) and surrounds them. */
  lemma {:induction false} WordsOfSpaced(gaps: seq<string>, ws: seq<string>)
    requires |gaps| == |ws| + 1
    requires forall k :: 0 <= k < |ws| ==> |ws[k]| > 0 && NoSpace(ws[k])
    requires forall k :: 0 <= k < |gaps| ==> AllSpace(gaps[k])
    requires forall k :: 0 < k < |ws| ==> |gaps[k]| > 0
    ensures Words(Spaced(gaps, ws)) == ws
    decreases |ws|
  {
    if ws == [] {
      WordsSkipGap(gaps[0], []);
      assert gaps[0] + [] == gaps[0];
    } else {
      var rest := Spaced(gaps[1..], ws[1..]);
      assert rest == [] || IsSpace(rest[0]) by {
        if |ws| > 1 {
          assert rest[..|gaps[1]|] == gaps[1];
          assert rest[0] == gaps[1][0];
        } else {
          assert rest == gaps[1];
        }
      }
      calc {
        Words(Spaced(gaps, ws));
        { assert Spaced(gaps, ws) == gaps[0] + (ws[0] + rest); }
        Words(gaps[0] + (ws[0] + rest));
        { WordsSkipGap(gaps[0], ws[0] + rest); }
        Words(ws[0] + rest);
        { WordsOfWord(ws[0], rest); }
        [ws[0]] + Words(rest);
        { WordsOfSpaced(gaps[1..], ws[1..]); }
        [ws[0]] + ws[1..];
      }
      assert [ws[0]] + ws[1..] == ws;
    }
  }

  /** Splitting words that were joined with single spaces gives them back. */
  lemma {:induction false} WordsOfJoin(ws: seq<string>)
    requires forall k :: 0 <= k < |ws| ==> |ws[k]| > 0 && NoSpace(ws[k])
    ensures Words(JoinWith(ws, " ")) == ws
  {
    if |ws| == 1 {
      WordsOfWord(ws[0], []);
      assert ws[0] + [] == ws[0];
    } else if |ws| > 1 {
      var rest := JoinWith(ws[1..], " ");
      calc {
        Words(JoinWith(ws, " "));
        { assert JoinWith(ws, " ") == ws[0] + (" " + rest); }
        Words(ws[0] + (" " + rest));
        { WordsOfWord(ws[0], " " + rest); }
        [ws[0]] + Words(" " + rest);
        { WordsSkipSpace(rest); }
        [ws[0]] + Words(rest);
        { WordsOfJoin(ws[1..]); }
        [ws[0]] + ws[1..];
      }
      assert [ws[0]] + ws[1..] == ws;
    }
  }

  /** `pat` occurs somewhere in `s` (the empty string occurs everywhere). */
  predicate Occurs(pat: string, s: string)
    decreases |s|
  {
    StartsWith(s, pat) || (|s| > 0 && Occurs(pat, s[1..]))
  }

  /** What Python's `s.replace("", rep)` returns: `rep` before every character
      and once more at the end. */
  function Interleave(s: string, rep: string): string
  {
    if s == [] then rep else rep + [s[0]] + Interleave(s[1..], rep)
  }

  /** `s.replace(pat, rep)`: scanning left to right, every non-overlapping
      occurrence of `pat` is replaced by `rep`. */
  function Replace(s: string, pat: string, rep: string): string
    decreases |s|
  {
    if pat == [] then Interleave(s, rep)
    else if |s| < |pat| then s
    else if s[..|pat|] == pat then rep + Replace(s[|pat|..], pat, rep)
    else [s[0]] + Replace(s[1..], pat, rep)
  }

  /** Replacing a string that does not occur changes nothing. */
  lemma {:induction false} ReplaceAbsent(s: string, pat: string, rep: string)
    requires !Occurs(pat, s)
    ensures Replace(s, pat, rep) == s
  {
    if |s| >= |pat| {
      assert s[..|pat|] != pat;
      ReplaceAbsent(s[1..], pat, rep);
      assert [s[0]] + s[1..] == s;
    }
  }

  lemma {:induction false} ShortNotOccurs(pat: string, s: string)
    requires |s| < |pat|
    ensures !Occurs(pat, s)
  {
    if s != [] {
      ShortNotOccurs(pat, s[1..]);
    }
  }

  /** A string cannot start where its first character is absent. */
  lemma {:induction false} NotOccursSkip(pat: string, s: string, k: nat)
    requires pat != [] && k <= |s|
    requires forall i :: 0 <= i < k ==> s[i] != pat[0]
    requires !Occurs(pat, s[k..])
    ensures !Occurs(pat, s)
    decreases k
  {
    if k == 0 {
      assert s[0..] == s;
    } else {
      assert s[1..][k - 1..] == s[k..];
      NotOccursSkip(pat, s[1..], k - 1);
      assert !StartsWith(s, pat) by {
        if |pat| <= |s| {
          assert s[..|pat|][0] == s[0];
        }
      }
    }
  }

  /** `pat` does not start anywhere inside `a` when it is written after `a`:
      the occurrence right after `a` is the leftmost one. */
  predicate FirstAfter(a: string, pat: string)
    requires pat != []
  {
    !Occurs(pat, (a + pat)[..|a| + |pat| - 1])
  }

  lemma FirstAfterNotAtStart(a: string, pat: string, b: string)
    requires pat != [] && a != []
    requires FirstAfter(a, pat)
    ensures (a + pat + b)[..|pat|] != pat
  {
    var s := a + pat + b;
    var p := (a + pat)[..|a| + |pat| - 1];
    assert p[..|pat|] == s[..|pat|];
  }

  lemma FirstAfterTail(a: string, pat: string)
    requires pat != [] && a != []
    requires FirstAfter(a, pat)
    ensures FirstAfter(a[1..], pat)
  {
    var p := (a + pat)[..|a| + |pat| - 1];
    var q := (a[1..] + pat)[..|a| - 1 + |pat| - 1];
    assert q == p[1..];
  }

  /** The leftmost occurrence of `pat` is replaced, and scanning resumes after it. */
  lemma {:induction false} ReplaceLeftmost(a: string, pat: string, b: string, rep: string)
    requires pat != []
    requires FirstAfter(a, pat)
    ensures Replace(a + pat + b, pat, rep) == a + rep + Replace(b, pat, rep)
    decreases |a|
  {
    var s := a + pat + b;
    if a == [] {
      assert s == pat + b;
      assert s[..|pat|] == pat;
      assert s[|pat|..] == b;
    } else {
      FirstAfterNotAtStart(a, pat, b);
      FirstAfterTail(a, pat);
      assert s[1..] == a[1..] + pat + b;
      calc {
        Replace(s, pat, rep);
        [s[0]] + Replace(s[1..], pat, rep);
        { ReplaceLeftmost(a[1..], pat, b, rep); }
        [a[0]] + (a[1..] + rep + Replace(b, pat, rep));
        { assert [a[0]] + a[1..] == a; }
        a + rep + Replace(b, pat, rep);
      }
    }
  }

  function DigitChar(d: nat): (c: char)
    requires d < 10
    ensures IsDigit(c)
  {
    ('0' as int + d) as char
  }

  /** `str(n)` for a non-negative integer: decimal digits, no leading zero. */
  function DecimalString(n: nat): (r: string)
    ensures |r| >= 1 && AllDigits(r)
    ensures r[0] == '0' ==> n == 0
  {
    if n < 10 then [DigitChar(n)] else DecimalString(n / 10) + [DigitChar(n % 10)]
  }

  /** The number a string of decimal digits denotes (`int(s)`). */
  function DecimalValue(s: string): nat
    requires AllDigits(s)
  {
    if s == [] then 0 else 10 * DecimalValue(s[..|s| - 1]) + (s[|s| - 1] as int - '0' as int)
  }

  /** `int(str(n)) == n` */
  lemma {:induction false} DecimalRoundTrip(n: nat)
    ensures DecimalValue(DecimalString(n)) == n
  {
    if n >= 10 {
      var r := DecimalString(n);
      assert r[..|r| - 1] == DecimalString(n / 10);
      DecimalRoundTrip(n / 10);
    }
  }

  /** A number below 1000 is written with one to three digits. */
  lemma {:induction false} DecimalLength(n: nat)
    requires n < 1000
    ensures 1 <= |DecimalString(n)| <= 3
  {
    if n >= 10 {
      DecimalLength(n / 10);
      if n < 100 {
        assert |DecimalString(n / 10)| == 1;
      }
    }
  }
}
