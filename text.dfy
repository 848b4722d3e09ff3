/**
 * The Python string operations the digest pipeline relies on, written out over
 * `seq<char>`: `str.lower` (ASCII letters only), `str.strip`, `str.split`,
 * `str.join`, `str.replace`, substring `in`, `str.startswith`, `str(int)` and
 * `int(str)`. Whitespace is Python's own `str.isspace` set.
 */
module Text {
  import opened Wrappers

  /** Python's whitespace: the characters `str.split()` and `str.strip()` remove. */
  predicate IsSpace(c: char) {
    c == ' ' || ('\t' <= c <= '\r') || ('\U{1c}' <= c <= '\U{1f}') || c == '\U{85}' || c == '\U{a0}'
    || c == '\U{1680}' || ('\U{2000}' <= c <= '\U{200a}') || c == '\U{2028}' || c == '\U{2029}'
    || c == '\U{202f}' || c == '\U{205f}' || c == '\U{3000}'
  }

  predicate NotSpace(c: char) { !IsSpace(c) }

  predicate IsDigit(c: char) { '0' <= c <= '9' }

  /** The quote characters removed by `.strip("\"'")`. */
  predicate IsQuote(c: char) { c == '"' || c == '\'' }

  function DigitValue(c: char): nat
    requires IsDigit(c)
  {
    (c as int - '0' as int) as nat
  }

  function DigitChar(d: nat): (c: char)
    requires d < 10
    ensures IsDigit(c) && DigitValue(c) == d
  {
    ('0' as int + d) as char
  }

  function LowerChar(c: char): char {
    if 'A' <= c <= 'Z' then (c as int + 32) as char else c
  }

  /** `s.lower()`, for ASCII letters. */
  function Lower(s: string): (r: string)
    ensures |r| == |s|
    ensures forall i :: 0 <= i < |s| ==> r[i] == LowerChar(s[i])
  {
    if s == [] then [] else [LowerChar(s[0])] + Lower(s[1..])
  }

  /** Lowercasing works character by character, so it distributes over concatenation. */
  lemma LowerConcat(a: string, b: string)
    ensures Lower(a + b) == Lower(a) + Lower(b)
  {
    var ab := a + b;
    var l, r := Lower(ab), Lower(a) + Lower(b);
    assert |l| == |r|;
    forall i | 0 <= i < |ab|
      ensures l[i] == r[i]
    {
      if i < |a| {
        assert ab[i] == a[i] && r[i] == Lower(a)[i];
      } else {
        assert ab[i] == b[i - |a|] && r[i] == Lower(b)[i - |a|];
      }
    }
  }

  /** Lowercasing keeps a text stripped and adds no comma. */
  lemma LowerShape(s: string)
    ensures IsStripped(s) ==> IsStripped(Lower(s))
    ensures ',' in Lower(s) ==> ',' in s
  {
    if ',' in Lower(s) {
      var i :| 0 <= i < |s| && Lower(s)[i] == ',';
      assert s[i] == ',';
    }
  }

  /** `s.startswith(p)`. */
  predicate StartsWith(s: string, p: string) {
    |p| <= |s| && s[..|p|] == p
  }

  /** `s.endswith(p)`. */
  predicate EndsWith(s: string, p: string) {
    |p| <= |s| && s[|s| - |p|..] == p
  }

  /** Python's `sub in s`. */
  predicate Contains(s: string, sub: string)
    decreases |s|
  {
    StartsWith(s, sub) || (|s| > 0 && Contains(s[1..], sub))
  }

  /** Python's `any(w in s for w in words)`. */
  predicate ContainsAny(s: string, words: seq<string>) {
    |words| > 0 && (Contains(s, words[0]) || ContainsAny(s, words[1..]))
  }

  lemma ContainsAnyOne(s: string, w: string)
    ensures ContainsAny(s, [w]) <==> Contains(s, w)
  {
    assert [w][1..] == [];
  }

  lemma {:induction false} ContainsAnyAt(s: string, words: seq<string>)
    ensures ContainsAny(s, words) <==> exists k :: 0 <= k < |words| && Contains(s, words[k])
  {
    if |words| > 0 {
      ContainsAnyAt(s, words[1..]);
      assert forall k :: 1 <= k < |words| ==> words[k] == words[1..][k - 1];
      if Contains(s, words[0]) {
        assert Contains(s, words[0]);
      } else if ContainsAny(s, words[1..]) {
        var k :| 0 <= k < |words[1..]| && Contains(s, words[1..][k]);
        assert Contains(s, words[k + 1]);
      }
    }
  }

  /** A string that is too short cannot contain `sub`. */
  lemma {:induction false} ContainsLength(s: string, sub: string)
    requires Contains(s, sub)
    ensures |sub| <= |s|
    decreases |s|
  {
    if !StartsWith(s, sub) {
      ContainsLength(s[1..], sub);
    }
  }

  // ---------------------------------------------------------------- strip

  /** Number of leading characters satisfying `p`. */
  function LeadingCount(s: string, p: char -> bool): (n: nat)
    ensures n <= |s|
    ensures forall k :: 0 <= k < n ==> p(s[k])
    ensures n < |s| ==> !p(s[n])
  {
    if s == [] || !p(s[0]) then 0 else 1 + LeadingCount(s[1..], p)
  }

  /** Number of trailing characters satisfying `p`. */
  function TrailingCount(s: string, p: char -> bool): (n: nat)
    ensures n <= |s|
    ensures forall k :: |s| - n <= k < |s| ==> p(s[k])
    ensures n < |s| ==> !p(s[|s| - 1 - n])
  {
    if s == [] || !p(s[|s| - 1]) then 0 else 1 + TrailingCount(s[..|s| - 1], p)
  }

  predicate IsStrippedBy(s: string, p: char -> bool) {
    s == [] || (!p(s[0]) && !p(s[|s| - 1]))
  }

  /** `s.strip(chars)`: drop the leading, then the trailing characters satisfying `p`. */
  function StripBy(s: string, p: char -> bool): (r: string)
    ensures IsStrippedBy(r, p)
    ensures |r| <= |s|
    ensures forall c :: c in r ==> c in s
  {
    var a := LeadingCount(s, p);
    var t := s[a..];
    assert forall c :: c in t ==> c in s;
    t[..|t| - TrailingCount(t, p)]
  }

  lemma StripByStripped(s: string, p: char -> bool)
    requires IsStrippedBy(s, p)
    ensures StripBy(s, p) == s
  {
    if s != [] {
      assert LeadingCount(s, p) == 0;
      assert s[0..] == s;
      assert TrailingCount(s, p) == 0;
    }
  }

  /** `s.strip()`. */
  function Strip(s: string): string {
    StripBy(s, IsSpace)
  }

  predicate IsStripped(s: string) {
    IsStrippedBy(s, IsSpace)
  }

  /** A single blank in front of a stripped, non-empty text is stripped away again. */
  lemma StripLeadingBlank(s: string)
    requires IsStripped(s) && s != []
    ensures Strip(" " + s) == s
  {
    var t := " " + s;
    assert t[1..] == s;
    assert LeadingCount(s, IsSpace) == 0;
    assert LeadingCount(t, IsSpace) == 1;
    assert TrailingCount(s, IsSpace) == 0;
    assert s[..|s|] == s;
  }

  /** `s.strip("\"'")`. */
  function StripQuotes(s: string): string {
    StripBy(s, IsQuote)
  }

  // ---------------------------------------------------------------- split / join

  /** `sep.join(xs)`. */
  function Join(xs: seq<string>, sep: string): string {
    if |xs| == 0 then "" else if |xs| == 1 then xs[0] else xs[0] + sep + Join(xs[1..], sep)
  }

  /** One more piece at the end of a join. */
  lemma {:induction false} JoinSnoc(xs: seq<string>, x: string, sep: string)
    requires |xs| > 0
    ensures Join(xs + [x], sep) == Join(xs, sep) + sep + x
  {
    if |xs| > 1 {
      assert (xs + [x])[1..] == xs[1..] + [x];
      JoinSnoc(xs[1..], x, sep);
    }
  }

  /** A text ends with what was appended to it. */
  lemma EndsWithAppended(s: string, p: string)
    ensures EndsWith(s + p, p)
  {
    assert (s + p)[|s + p| - |p|..] == p;
  }

  /** Regrouping the last four parts of a concatenation. */
  lemma AppendFour(s: string, p: string, q: string, r: string, t: string)
    ensures s + p + q + r + t == s + (p + q + r + t)
  {
  }

  /** Two more pieces at the end of a join. */
  lemma JoinSnocTwo(xs: seq<string>, a: string, b: string, sep: string)
    requires |xs| > 0
    ensures Join(xs + [a, b], sep) == Join(xs, sep) + (sep + a + sep + b)
  {
    var ys := xs + [a];
    JoinSnoc(xs, a, sep);
    JoinSnoc(ys, b, sep);
    assert xs + [a, b] == ys + [b];
    AppendFour(Join(xs, sep), sep, a, sep, b);
  }

  /** A join whose last two pieces are `a` and `b` ends with them and their separators. */
  lemma JoinEndsWithLastTwo(xs: seq<string>, a: string, b: string, sep: string)
    requires |xs| > 0
    ensures EndsWith(Join(xs + [a, b], sep), sep + a + sep + b)
  {
    JoinSnocTwo(xs, a, b, sep);
    EndsWithAppended(Join(xs, sep), sep + a + sep + b);
  }

  /** A join whose last two pieces are an empty line and `b` ends with two separators and `b`. */
  lemma JoinEndsWithBlankThen(xs: seq<string>, b: string, sep: string)
    requires |xs| > 0
    ensures EndsWith(Join(xs + ["", b], sep), sep + sep + b)
  {
    JoinEndsWithLastTwo(xs, "", b, sep);
    assert sep + "" + sep + b == sep + sep + b;
  }

  /** A join starts like its first piece and ends like its last. */
  lemma {:induction false} JoinEnds(xs: seq<string>, sep: string)
    requires |xs| > 0 && forall k :: 0 <= k < |xs| ==> |xs[k]| > 0
    ensures var j := Join(xs, sep); |j| > 0 && j[0] == xs[0][0] && j[|j| - 1] == xs[|xs| - 1][|xs[|xs| - 1]| - 1]
  {
    if |xs| > 1 {
      JoinEnds(xs[1..], sep);
      assert xs[1..][|xs| - 2] == xs[|xs| - 1];
    }
  }

  /** `s.split(c)` for a one-character separator: never empty, no piece holds `c`. */
  function Split(s: string, c: char): (r: seq<string>)
    ensures |r| >= 1
    ensures forall k :: 0 <= k < |r| ==> c !in r[k]
  {
    if s == [] then [""]
    else
      var t := Split(s[1..], c);
      if s[0] == c then [""] + t else [[s[0]] + t[0]] + t[1..]
  }

  /** Splitting loses nothing: joining the pieces with the separator gives `s` back. */
  lemma {:induction false} JoinSplit(s: string, c: char)
    ensures Join(Split(s, c), [c]) == s
  {
    if s != [] {
      var t := Split(s[1..], c);
      JoinSplit(s[1..], c);
      if s[0] == c {
        assert Split(s, c) == [""] + t;
        assert ([""] + t)[1..] == t;
      } else {
        assert Split(s, c) == [[s[0]] + t[0]] + t[1..];
        if |t| == 1 {
          assert Join(t, [c]) == t[0];
        } else {
          var u := [[s[0]] + t[0]] + t[1..];
          assert u[1..] == t[1..];
          assert Join(t, [c]) == t[0] + [c] + Join(t[1..], [c]);
        }
      }
    }
  }

  /** A string without the separator is one piece. */
  lemma {:induction false} SplitNoSep(s: string, c: char)
    requires c !in s
    ensures Split(s, c) == [s]
  {
    if s != [] {
      assert s[0] != c && c !in s[1..];
      SplitNoSep(s[1..], c);
      var t := Split(s[1..], c);
      assert t[1..] == [];
      assert [s[0]] + s[1..] == s;
    }
  }

  /** Splitting `a + [c] + b` where `a` has no separator. */
  lemma {:induction false} SplitCons(a: string, c: char, b: string)
    requires c !in a
    ensures Split(a + [c] + b, c) == [a] + Split(b, c)
  {
    if a == [] {
      assert a + [c] + b == [c] + b;
      assert ([c] + b)[1..] == b;
    } else {
      assert (a + [c] + b)[1..] == a[1..] + [c] + b;
      SplitCons(a[1..], c, b);
      assert [a[0]] + a[1..] == a;
    }
  }

  /** Joining pieces free of the separator and splitting again gives the pieces back. */
  lemma {:induction false} SplitJoin(xs: seq<string>, c: char)
    requires |xs| >= 1 && forall k :: 0 <= k < |xs| ==> c !in xs[k]
    ensures Split(Join(xs, [c]), c) == xs
  {
    if |xs| == 1 {
      SplitNoSep(xs[0], c);
    } else {
      SplitJoin(xs[1..], c);
      SplitCons(xs[0], c, Join(xs[1..], [c]));
      assert [xs[0]] + xs[1..] == xs;
    }
  }

  /** Index of the first `c` in `s`, or |s| when there is none. */
  function FindChar(s: string, c: char): (i: nat)
    ensures i <= |s|
    ensures c !in s[..i]
    ensures i < |s| ==> s[i] == c
  {
    if s == [] then 0
    else if s[0] == c then 0
    else
      var j := FindChar(s[1..], c);
      assert s[..j + 1] == [s[0]] + s[1..][..j];
      j + 1
  }

  /** `s.split(c, 1)`: one piece when `c` is absent, else the text before and after the first `c`. */
  function SplitOnce(s: string, c: char): (r: seq<string>)
    ensures 1 <= |r| <= 2
    ensures |r| == 1 <==> c !in s
    ensures |r| == 1 ==> r[0] == s
    ensures |r| == 2 ==> c !in r[0] && s == r[0] + [c] + r[1]
  {
    var i := FindChar(s, c);
    if i == |s| then
      assert s[..i] == s;
      [s]
    else
      assert s == s[..i] + [c] + s[i + 1..];
      [s[..i], s[i + 1..]]
  }

  /** Splitting at the first `c` recovers the text around it. */
  lemma SplitOnceAt(a: string, c: char, b: string)
    requires c !in a
    ensures SplitOnce(a + [c] + b, c) == [a, b]
  {
    var s := a + [c] + b;
    var r := SplitOnce(s, c);
    assert s[|a|] == c;
    assert |r| == 2;
    assert r[0] == s[..|a|] == a;
    assert r[1] == s[|a| + 1..] == b;
  }

  /** `s.replace(pat, rep)`: every non-overlapping occurrence, left to right. */
  function ReplaceAll(s: string, pat: string, rep: string): string
    requires |pat| > 0
    decreases |s|
  {
    if StartsWith(s, pat) then rep + ReplaceAll(s[|pat|..], pat, rep)
    else if s == [] then []
    else [s[0]] + ReplaceAll(s[1..], pat, rep)
  }

  /** Each character replaced by a text of its own, left to right. */
  function FlatMap(f: char -> string, s: string): string {
    if s == [] then [] else f(s[0]) + FlatMap(f, s[1..])
  }

  lemma {:induction false} FlatMapConcat(f: char -> string, a: string, b: string)
    ensures FlatMap(f, a + b) == FlatMap(f, a) + FlatMap(f, b)
  {
    if a == [] {
      assert a + b == b;
    } else {
      assert (a + b)[1..] == a[1..] + b;
      FlatMapConcat(f, a[1..], b);
    }
  }

  /** Characters that map to themselves are kept as they are. */
  lemma {:induction false} FlatMapKeeps(f: char -> string, s: string)
    requires forall k :: 0 <= k < |s| ==> f(s[k]) == [s[k]]
    ensures FlatMap(f, s) == s
  {
    if s != [] {
      var t := s[1..];
      forall k | 0 <= k < |t|
        ensures f(t[k]) == [t[k]]
      {
        assert t[k] == s[k + 1];
      }
      FlatMapKeeps(f, t);
      assert f(s[0]) == [s[0]];
      assert s == [s[0]] + t;
    }
  }

  /** A character no piece contains is not in the result. */
  lemma {:induction false} FlatMapAvoids(f: char -> string, s: string, c: char)
    requires forall k :: 0 <= k < |s| ==> c !in f(s[k])
    ensures c !in FlatMap(f, s)
  {
    if s != [] {
      assert forall k :: 0 <= k < |s[1..]| ==> s[1..][k] == s[k + 1];
      FlatMapAvoids(f, s[1..], c);
    }
  }

  lemma {:induction false} FlatMapPointwise(f: char -> string, g: char -> string, s: string)
    requires forall k :: 0 <= k < |s| ==> f(s[k]) == g(s[k])
    ensures FlatMap(f, s) == FlatMap(g, s)
  {
    if s != [] {
      assert forall k :: 0 <= k < |s[1..]| ==> s[1..][k] == s[k + 1];
      FlatMapPointwise(f, g, s[1..]);
    }
  }

  /** The replacement of one character by a text. */
  function Swap(c: char, rep: string): char -> string {
    x => if x == c then rep else [x]
  }

  /** `f` applied to what `g` yields for one character. */
  function Then(f: char -> string, g: char -> string): char -> string {
    x => FlatMap(f, g(x))
  }

  /** Replacing a one-character pattern is a character-by-character map. */
  lemma {:induction false} ReplaceOneChar(s: string, c: char, rep: string)
    ensures ReplaceAll(s, [c], rep) == FlatMap(Swap(c, rep), s)
    decreases |s|
  {
    if s != [] {
      ReplaceOneChar(s[1..], c, rep);
      if s[0] == c {
        assert StartsWith(s, [c]) && s[|[c]|..] == s[1..];
      } else {
        assert !StartsWith(s, [c]);
      }
    }
  }

  /** Two character maps in a row are one character map. */
  lemma {:induction false} FlatMapCompose(f: char -> string, g: char -> string, s: string)
    ensures FlatMap(f, FlatMap(g, s)) == FlatMap(Then(f, g), s)
  {
    if s != [] {
      FlatMapConcat(f, g(s[0]), FlatMap(g, s[1..]));
      FlatMapCompose(f, g, s[1..]);
    }
  }

  /** Python's `s[:n]`, including negative `n`. */
  function PyTake<T>(s: seq<T>, n: int): (r: seq<T>)
    ensures n >= 0 ==> r == s[..if n < |s| then n else |s|]
    ensures |r| <= |s| && r == s[..|r|]
  {
    if n >= 0 then s[..if n < |s| then n else |s|]
    else if |s| + n <= 0 then []
    else s[..|s| + n]
  }

  // ---------------------------------------------------------------- words

  /** `s.split()`: the maximal runs of non-blank characters, in order. */
  function Words(s: string): (r: seq<string>)
    ensures forall k :: 0 <= k < |r| ==> IsWord(r[k])
    decreases |s|
  {
    if s == [] then []
    else if IsSpace(s[0]) then Words(s[1..])
    else
      var n := LeadingCount(s, NotSpace);
      [s[..n]] + Words(s[n..])
  }

  /** What `Words` yields: non-empty and blank-free. */
  predicate IsWord(w: string) {
    |w| > 0 && forall k :: 0 <= k < |w| ==> !IsSpace(w[k])
  }

  /** A word is one run of non-blanks from its first character to its last. */
  lemma WordAlone(w: string)
    requires IsWord(w)
    ensures LeadingCount(w, NotSpace) == |w|
  {
  }

  lemma WordThenSpace(w: string, rest: string)
    requires IsWord(w)
    ensures LeadingCount(w + " " + rest, NotSpace) == |w|
  {
    var s := w + " " + rest;
    assert forall k :: 0 <= k < |w| ==> s[k] == w[k];
    assert s[|w|] == ' ';
  }

  /** Joining words with single spaces and splitting again gives the words back. */
  lemma {:induction false} WordsJoin(ws: seq<string>)
    requires forall k :: 0 <= k < |ws| ==> IsWord(ws[k])
    ensures Words(Join(ws, " ")) == ws
  {
    if |ws| == 1 {
      var w := ws[0];
      WordAlone(w);
      assert w[..|w|] == w;
      assert w[|w|..] == [];
    } else if |ws| > 1 {
      var w := ws[0];
      var j := Join(ws[1..], " ");
      var s := w + " " + j;
      assert Join(ws, " ") == s;
      WordThenSpace(w, j);
      assert s[..|w|] == w;
      assert s[|w|..] == " " + j;
      assert (" " + j)[1..] == j;
      WordsJoin(ws[1..]);
      assert [w] + ws[1..] == ws;
    }
  }

  // ---------------------------------------------------------------- integers

  /** `str(n)` for a natural number. */
  function NatToString(n: nat): (r: string)
    ensures |r| > 0
    ensures forall k :: 0 <= k < |r| ==> IsDigit(r[k])
  {
    if n < 10 then [DigitChar(n)] else NatToString(n / 10) + [DigitChar(n % 10)]
  }

  /** `str(n)`. */
  function IntToString(n: int): string {
    if n < 0 then "-" + NatToString(-n) else NatToString(n)
  }

  /** The body of a Python integer literal: digits, single underscores between digits. */
  predicate IsDecimal(t: string) {
    |t| > 0 && DigitsOrUnderscores(t) &&
    forall i :: 0 <= i < |t| ==>
      IsDigit(t[i]) || (t[i] == '_' && 0 < i < |t| - 1 && IsDigit(t[i - 1]) && IsDigit(t[i + 1]))
  }

  predicate DigitsOrUnderscores(t: string) {
    forall i :: 0 <= i < |t| ==> IsDigit(t[i]) || t[i] == '_'
  }

  /** Value of the digits of `t`, underscores ignored. */
  function DecimalValue(t: string): nat
    requires DigitsOrUnderscores(t)
  {
    if t == [] then 0
    else if t[|t| - 1] == '_' then DecimalValue(t[..|t| - 1])
    else 10 * DecimalValue(t[..|t| - 1]) + DigitValue(t[|t| - 1])
  }

  /** Python's `int(s)`: None where Python raises ValueError (ASCII digits only). */
  function ParseInt(s: string): Option<int> {
    var t := Strip(s);
    if |t| > 0 && (t[0] == '+' || t[0] == '-') then
      if IsDecimal(t[1..]) then
        var v := DecimalValue(t[1..]);
        Some(if t[0] == '-' then -(v as int) else v)
      else None
    else if IsDecimal(t) then Some(DecimalValue(t))
    else None
  }

  lemma {:induction false} DecimalValueOfNat(n: nat)
    ensures DecimalValue(NatToString(n)) == n
  {
    var r := NatToString(n);
    if n >= 10 {
      DecimalValueOfNat(n / 10);
      assert r[..|r| - 1] == NatToString(n / 10);
    }
  }

  /** `int(str(n)) == n` for every natural number. */
  lemma ParseIntOfNat(n: nat)
    ensures ParseInt(NatToString(n)) == Some(n)
  {
    var r := NatToString(n);
    assert IsStripped(r) by {
      assert !IsSpace(r[0]) && !IsSpace(r[|r| - 1]);
    }
    StripByStripped(r, IsSpace);
    DecimalValueOfNat(n);
  }

  /** A stripped text of a minus sign and an integer literal body reads as minus its value. */
  lemma ParseIntMinus(t: string)
    requires IsStripped(t) && |t| > 0 && t[0] == '-' && IsDecimal(t[1..])
    ensures ParseInt(t) == Some(-(DecimalValue(t[1..]) as int))
  {
    StripByStripped(t, IsSpace);
  }

  /** A minus sign followed by digits reads as minus their value. */
  lemma ParseIntMinusDigits(r: string, d: string)
    requires |d| > 0 && (forall k :: 0 <= k < |d| ==> IsDigit(d[k])) && r == "-" + d
    ensures ParseInt(r) == Some(-(DecimalValue(d) as int))
  {
    assert r[1..] == d;
    assert IsDecimal(r[1..]);
    assert IsStripped(r) by {
      assert r[|r| - 1] == d[|d| - 1];
      assert !IsSpace(r[0]) && !IsSpace(r[|r| - 1]);
    }
    ParseIntMinus(r);
  }

  /** `int(str(n)) == n` for every negative `n`. */
  lemma ParseIntOfNegative(n: int)
    requires n < 0
    ensures ParseInt(IntToString(n)) == Some(n)
  {
    var m: nat := -n;
    var d := NatToString(m);
    DecimalValueOfNat(m);
    assert -(DecimalValue(d) as int) == n;
    ParseIntMinusDigits(IntToString(n), d);
  }

  /** `int(str(n)) == n` for every integer. */
  lemma ParseIntOfInt(n: int)
    ensures ParseInt(IntToString(n)) == Some(n)
  {
    if n >= 0 {
      ParseIntOfNat(n);
    } else {
      ParseIntOfNegative(n);
    }
  }
}
