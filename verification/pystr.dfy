/** Small models of the Python `str` operations the tools rely on:
    whitespace `split()`, `split(sep)`, `split(sep, maxsplit)`,
    `split(maxsplit=1)`, `splitlines()`, `strip()`, `count`, `replace`,
    `isnumeric`, `int()` on decimal literals and `str()` of an integer.

    Whitespace is the ASCII/Latin-1 part of Python's notion (`str.isspace`,
    regex `\s`); other Unicode separators are not modelled.
 */
module PyStr {

  import opened Base

  predicate IsSpace(c: char) {
    c == ' ' || c == '\t' || c == '\n' || c == '\r' || c == '\U{0B}' || c == '\U{0C}'
    || ('\U{1C}' <= c <= '\U{1F}') || c == '\U{85}' || c == '\U{A0}'
  }

  predicate NoSpace(s: string) {
    forall i :: 0 <= i < |s| ==> !IsSpace(s[i])
  }

  predicate AllSpace(s: string) {
    forall i :: 0 <= i < |s| ==> IsSpace(s[i])
  }

  predicate IsDigit(c: char) {
    '0' <= c <= '9'
  }

  /** `s` matches `^\d+$` (ASCII digits). */
  predicate IsDigits(s: string) {
    |s| > 0 && forall i :: 0 <= i < |s| ==> IsDigit(s[i])
  }

  /** `str.isnumeric()`, restricted to ASCII digits. */
  predicate IsNumeric(s: string) {
    IsDigits(s)
  }

  predicate StartsWith(s: string, prefix: string) {
    |prefix| <= |s| && s[..|prefix|] == prefix
  }

  predicate EndsWith(s: string, suffix: string) {
    |suffix| <= |s| && s[|s| - |suffix|..] == suffix
  }

  /** `sub in s` (also what an unanchored `re.search` of a literal decides). */
  predicate Contains(s: string, sub: string)
    decreases |s|
  {
    StartsWith(s, sub) || (|s| > 0 && Contains(s[1..], sub))
  }

  // ---------------------------------------------------------------- strip

  function LStrip(s: string): (r: string)
    ensures |r| <= |s| && r == s[|s| - |r|..]
    ensures r == [] || !IsSpace(r[0])
    ensures AllSpace(s[..|s| - |r|])
  {
    if s != [] && IsSpace(s[0]) then
      var r := LStrip(s[1..]);
      assert s[1..][|s| - 1 - |r|..] == s[|s| - |r|..];
      AllSpaceFront(s, |s| - |r|);
      r
    else s
  }

  lemma AllSpaceFront(s: string, n: nat)
    requires 0 < n <= |s| && IsSpace(s[0]) && AllSpace(s[1..][..n - 1])
    ensures AllSpace(s[..n])
  {
    forall i | 0 <= i < n
      ensures IsSpace(s[..n][i])
    {
      if i > 0 {
        assert s[..n][i] == s[1..][..n - 1][i - 1];
      }
    }
  }

  function RStrip(s: string): (r: string)
    ensures |r| <= |s| && r == s[..|r|]
    ensures r == [] || !IsSpace(r[|r| - 1])
    ensures AllSpace(s[|r|..])
  {
    if s != [] && IsSpace(s[|s| - 1]) then RStrip(s[..|s| - 1]) else s
  }

  /** `str.strip()` with no argument. */
  function Strip(s: string): (r: string)
    ensures r == [] || (!IsSpace(r[0]) && !IsSpace(r[|r| - 1]))
  {
    RStrip(LStrip(s))
  }

  // ---------------------------------------------------------------- join

  /** `sep.join(parts)`. */
  function Join(parts: seq<string>, sep: string): string
  {
    if |parts| == 0 then ""
    else if |parts| == 1 then parts[0]
    else parts[0] + sep + Join(parts[1..], sep)
  }

  // ---------------------------------------------------------------- split()

  /** Length of the leading run of non-whitespace characters. */
  function TokenEnd(s: string): (n: nat)
    ensures n <= |s|
    ensures NoSpace(s[..n])
    ensures n == |s| || IsSpace(s[n])
  {
    if s == [] || IsSpace(s[0]) then 0 else 1 + TokenEnd(s[1..])
  }

  /** Python `s.split()`: the maximal runs of non-whitespace characters. */
  function Split(s: string): (r: seq<string>)
    ensures forall i :: 0 <= i < |r| ==> |r[i]| > 0 && NoSpace(r[i])
    decreases |s|
  {
    var t := LStrip(s);
    if t == [] then []
    else
      var n := TokenEnd(t);
      [t[..n]] + Split(t[n..])
  }

  /** `s.split()[0]` is defined exactly when `s` has a non-whitespace character. */
  predicate HasToken(s: string) {
    |Split(s)| > 0
  }

  /** `s.split()[0]`, or `None` where Python raises `IndexError`. */
  function FirstToken(s: string): (r: Option<string>)
    ensures r.Some? <==> HasToken(s)
    ensures r.Some? ==> r.value == Split(s)[0]
  {
    var parts := Split(s);
    if |parts| > 0 then Some(parts[0]) else None
  }



  lemma SplitLeadingSpace(c: char, s: string)
    requires IsSpace(c)
    ensures Split([c] + s) == Split(s)
  {
    assert ([c] + s)[1..] == s;
  }

  lemma SplitUnfold(s: string)
    requires s != [] && !IsSpace(s[0])
    ensures Split(s) == [s[..TokenEnd(s)]] + Split(s[TokenEnd(s)..])
  {
    assert LStrip(s) == s;
  }

  /** Splitting `tok + c + rest` yields `tok` and then the tokens of `rest`. */
  lemma SplitCons(tok: string, c: char, rest: string)
    requires |tok| > 0 && NoSpace(tok) && IsSpace(c)
    ensures Split(tok + [c] + rest) == [tok] + Split(rest)
  {
    var s := tok + ([c] + rest);
    assert tok + [c] + rest == s;
    assert s[0] == tok[0];
    TokenEndOf(tok, [c] + rest);
    SplitUnfold(s);
    assert s[..|tok|] == tok;
    assert s[|tok|..] == [c] + rest;
    SplitLeadingSpace(c, rest);
  }

  lemma TokenEndOf(tok: string, rest: string)
    requires NoSpace(tok)
    requires rest == [] || IsSpace(rest[0])
    ensures TokenEnd(tok + rest) == |tok|
    decreases |tok|
  {
    if tok != [] {
      assert (tok + rest)[1..] == tok[1..] + rest;
      TokenEndOf(tok[1..], rest);
    } else {
      assert tok + rest == rest;
    }
  }

  lemma SplitSingle(tok: string)
    requires |tok| > 0 && NoSpace(tok)
    ensures Split(tok) == [tok]
  {
    assert LStrip(tok) == tok;
    TokenEndOf(tok, []);
    assert tok + [] == tok;
    assert tok[|tok|..] == [];
  }

  /** Round trip: whitespace-splitting a single-space join of spaceless tokens gives them back. */
  lemma {:induction false} SplitJoinSpace(toks: seq<string>)
    requires forall i :: 0 <= i < |toks| ==> |toks[i]| > 0 && NoSpace(toks[i])
    ensures Split(Join(toks, " ")) == toks
    decreases |toks|
  {
    if |toks| == 0 {
    } else if |toks| == 1 {
      SplitSingle(toks[0]);
    } else {
      SplitJoinSpace(toks[1..]);
      SplitJoinStep(toks);
    }
  }

  /** One induction step of `SplitJoinSpace`: the first token splits off at the first space. */
  lemma SplitJoinStep(toks: seq<string>)
    requires |toks| >= 2 && |toks[0]| > 0 && NoSpace(toks[0])
    requires Split(Join(toks[1..], " ")) == toks[1..]
    ensures Split(Join(toks, " ")) == toks
  {
    var rest := Join(toks[1..], " ");
    JoinSpaceCons(toks);
    SplitCons(toks[0], ' ', rest);
    HeadTail(toks);
  }

  /** A non-empty sequence is its head followed by its tail. */
  lemma HeadTail<T>(xs: seq<T>)
    requires |xs| > 0
    ensures [xs[0]] + xs[1..] == xs
  {
  }

  lemma JoinSpaceCons(toks: seq<string>)
    requires |toks| >= 2
    ensures Join(toks, " ") == toks[0] + [' '] + Join(toks[1..], " ")
  {
    assert " " == [' '];
  }

  // ---------------------------------------------------------------- split(maxsplit=1)

  /** Python `s.split(maxsplit=1)`: the first token and, if anything but
      whitespace follows, the remainder with its leading whitespace removed. */
  function SplitOnce(s: string): (r: seq<string>)
    ensures |r| <= 2
    ensures |r| == 0 <==> |Split(s)| == 0
    ensures |r| >= 1 ==> r[0] == Split(s)[0]
    ensures |r| == 2 ==> r[1] != [] && !IsSpace(r[1][0]) && Split(s) == [r[0]] + Split(r[1])
  {
    var t := LStrip(s);
    if t == [] then []
    else
      var n := TokenEnd(t);
      var rest := LStrip(t[n..]);
      LStripSplit(t[n..]);
      if rest == [] then [t[..n]] else [t[..n], rest]
  }

  lemma {:induction false} LStripSplit(s: string)
    ensures Split(LStrip(s)) == Split(s)
    ensures LStrip(s) == [] <==> Split(s) == []
    decreases |s|
  {
    if s != [] && IsSpace(s[0]) {
      LStripSplit(s[1..]);
    }
  }

  // ---------------------------------------------------------------- split(sep)

  function IndexOf(s: string, c: char): (i: nat)
    requires c in s
    ensures i < |s| && s[i] == c && c !in s[..i]
  {
    if s[0] == c then 0 else 1 + IndexOf(s[1..], c)
  }

  /** Python `s.split(sep)` for a one-character separator. */
  function SplitSep(s: string, sep: char): (r: seq<string>)
    ensures |r| >= 1
    ensures forall i :: 0 <= i < |r| ==> sep !in r[i]
    ensures Join(r, [sep]) == s
    decreases |s|
  {
    if sep in s then
      var i := IndexOf(s, sep);
      var rest := SplitSep(s[i + 1..], sep);
      assert s == s[..i] + [sep] + s[i + 1..];
      [s[..i]] + rest
    else
      [s]
  }

  /** The first separator of `a + [sep] + b` is the one after `a` when `a` has none. */
  lemma {:induction false} IndexOfAfter(a: string, sep: char, b: string)
    requires sep !in a
    ensures IndexOf(a + [sep] + b, sep) == |a|
    decreases |a|
  {
    if a != [] {
      assert (a + [sep] + b)[1..] == a[1..] + [sep] + b;
      IndexOfAfter(a[1..], sep, b);
    }
  }

  /** Round trip in the other direction: splitting a join of separator-free
      parts gives the parts back. */
  lemma {:induction false} SplitSepJoin(parts: seq<string>, sep: char)
    requires |parts| >= 1
    requires forall i :: 0 <= i < |parts| ==> sep !in parts[i]
    ensures SplitSep(Join(parts, [sep]), sep) == parts
  {
    if |parts| > 1 {
      var s := Join(parts, [sep]);
      var tail := Join(parts[1..], [sep]);
      assert s == parts[0] + [sep] + tail;
      assert s[|parts[0]|] == sep;
      IndexOfAfter(parts[0], sep, tail);
      assert s[..|parts[0]|] == parts[0];
      assert s[|parts[0]| + 1..] == tail;
      SplitSepJoin(parts[1..], sep);
      assert [parts[0]] + parts[1..] == parts;
    }
  }

  /** Python `s.split(sep, maxsplit)` for a one-character separator. */
  function SplitSepMax(s: string, sep: char, maxsplit: nat): (r: seq<string>)
    ensures 1 <= |r| <= maxsplit + 1
    ensures Join(r, [sep]) == s
    ensures forall i :: 0 <= i < |r| - 1 ==> sep !in r[i]
    ensures |r| > 1 <==> (maxsplit > 0 && sep in s)
    decreases maxsplit
  {
    if maxsplit == 0 || sep !in s then [s]
    else
      var i := IndexOf(s, sep);
      assert s == s[..i] + [sep] + s[i + 1..];
      [s[..i]] + SplitSepMax(s[i + 1..], sep, maxsplit - 1)
  }

  /** With a bound of at least two, the second field of `split(sep, maxsplit)`
      is the second field of the unbounded split. */
  lemma {:induction false} SplitSepMaxSecond(s: string, sep: char, maxsplit: nat)
    requires maxsplit >= 2
    requires |SplitSepMax(s, sep, maxsplit)| > 1
    ensures |SplitSep(s, sep)| > 1
    ensures SplitSepMax(s, sep, maxsplit)[1] == SplitSep(s, sep)[1]
  {
    var i := IndexOf(s, sep);
    var rest := s[i + 1..];
    if sep in rest {
      var j := IndexOf(rest, sep);
    }
  }

  // ---------------------------------------------------------------- splitlines()

  /** The characters `str.splitlines()` breaks on. */
  predicate IsLineBreak(c: char) {
    c == '\n' || c == '\r' || c == '\U{0B}' || c == '\U{0C}' || ('\U{1C}' <= c <= '\U{1E}')
    || c == '\U{85}' || c == '\U{2028}' || c == '\U{2029}'
  }

  predicate NoLineBreak(s: string) {
    forall i :: 0 <= i < |s| ==> !IsLineBreak(s[i])
  }

  function LineEnd(s: string): (n: nat)
    ensures n <= |s|
    ensures NoLineBreak(s[..n])
    ensures n < |s| ==> IsLineBreak(s[n])
  {
    if s == [] || IsLineBreak(s[0]) then 0 else 1 + LineEnd(s[1..])
  }

  /** Python `s.splitlines()`: `\r\n` is one break, and a final break does
      not open an empty last line. */
  function SplitLines(s: string): (r: seq<string>)
    ensures |r| == 0 <==> s == []
    ensures forall i :: 0 <= i < |r| ==> NoLineBreak(r[i])
    decreases |s|
  {
    if s == [] then []
    else
      var n := LineEnd(s);
      if n == |s| then [s]
      else
        var skip := if s[n] == '\r' && n + 1 < |s| && s[n + 1] == '\n' then 2 else 1;
        [s[..n]] + SplitLines(s[n + skip..])
  }

  /** Lines joined with `\n` and terminated with `\n` split back into themselves. */
  lemma {:induction false} SplitLinesJoin(lines: seq<string>)
    requires forall i :: 0 <= i < |lines| ==> NoLineBreak(lines[i])
    ensures SplitLines(Terminated(lines)) == lines
  {
    if lines != [] {
      var head := lines[0];
      var tail := Terminated(lines[1..]);
      var s := Terminated(lines);
      assert s == head + ("\n" + tail);
      LineEndOf(head, "\n" + tail);
      SplitLinesStep(head, tail);
      SplitLinesJoin(lines[1..]);
      assert [lines[0]] + lines[1..] == lines;
    }
  }

  lemma SplitLinesStep(head: string, tail: string)
    requires NoLineBreak(head)
    requires LineEnd(head + ("\n" + tail)) == |head|
    ensures SplitLines(head + ("\n" + tail)) == [head] + SplitLines(tail)
  {
    var s := head + ("\n" + tail);
    var n := |head|;
    assert s[n] == '\n';
    assert s[..n] == head;
    assert s[n + 1..] == tail;
  }

  /** Every line followed by `\n`, as a file is written line by line. */
  function Terminated(lines: seq<string>): string
  {
    if lines == [] then "" else lines[0] + "\n" + Terminated(lines[1..])
  }

  lemma LineEndOf(line: string, rest: string)
    requires NoLineBreak(line)
    requires rest != [] && IsLineBreak(rest[0])
    ensures LineEnd(line + rest) == |line|
    decreases |line|
  {
    if line != [] {
      assert (line + rest)[1..] == line[1..] + rest;
      LineEndOf(line[1..], rest);
    } else {
      assert line + rest == rest;
    }
  }

  // ---------------------------------------------------------------- count / replace

  /** Python `s.count(sub)`: non-overlapping occurrences scanned left to right. */
  function Count(s: string, sub: string): nat
    requires |sub| > 0
    decreases |s|
  {
    if |s| < |sub| then 0
    else if s[..|sub|] == sub then 1 + Count(s[|sub|..], sub)
    else Count(s[1..], sub)
  }

  /** Python `s.replace(pat, rep)`: the same left-to-right, non-overlapping scan. */
  function Replace(s: string, pat: string, rep: string): string
    requires |pat| > 0
    decreases |s|
  {
    if |s| < |pat| then s
    else if s[..|pat|] == pat then rep + Replace(s[|pat|..], pat, rep)
    else [s[0]] + Replace(s[1..], pat, rep)
  }

  /** Counting a single character counts its occurrences. */
  lemma {:induction false} CountChar(s: string, c: char)
    ensures Count(s, [c]) == multiset(s)[c]
    decreases |s|
  {
    if |s| >= 1 {
      assert s == [s[0]] + s[1..];
      assert s[1..] == s[|[c]|..];
      CountChar(s[1..], c);
    }
  }

  /** How a replacement shifts the number of occurrences of one character:
      each replaced `pat` trades its copies of `c` for those of `rep`. */
  lemma {:induction false} ReplaceCharCount(s: string, pat: string, rep: string, c: char)
    requires |pat| > 0
    ensures multiset(Replace(s, pat, rep))[c] + Count(s, pat) * multiset(pat)[c]
            == multiset(s)[c] + Count(s, pat) * multiset(rep)[c]
    decreases |s|
  {
    if |s| >= |pat| {
      if s[..|pat|] == pat {
        var t := s[|pat|..];
        ReplaceCharCount(t, pat, rep, c);
        ReplaceMatchStep(s, pat, rep, c);
        Distribute(Count(t, pat), multiset(pat)[c]);
        Distribute(Count(t, pat), multiset(rep)[c]);
      } else {
        ReplaceCharCount(s[1..], pat, rep, c);
        ReplaceSkipStep(s, pat, rep, c);
      }
    }
  }

  lemma Distribute(k: nat, m: nat)
    ensures (1 + k) * m == m + k * m
  {
  }

  lemma ReplaceMatchStep(s: string, pat: string, rep: string, c: char)
    requires 0 < |pat| <= |s| && s[..|pat|] == pat
    ensures Count(s, pat) == 1 + Count(s[|pat|..], pat)
    ensures multiset(s)[c] == multiset(pat)[c] + multiset(s[|pat|..])[c]
    ensures multiset(Replace(s, pat, rep))[c] == multiset(rep)[c] + multiset(Replace(s[|pat|..], pat, rep))[c]
  {
    assert s == pat + s[|pat|..];
  }

  lemma ReplaceSkipStep(s: string, pat: string, rep: string, c: char)
    requires 0 < |pat| <= |s| && s[..|pat|] != pat
    ensures Count(s, pat) == Count(s[1..], pat)
    ensures multiset(s)[c] == multiset([s[0]])[c] + multiset(s[1..])[c]
    ensures multiset(Replace(s, pat, rep))[c] == multiset([s[0]])[c] + multiset(Replace(s[1..], pat, rep))[c]
  {
    assert s == [s[0]] + s[1..];
  }

  // ---------------------------------------------------------------- integers

  function DigitValue(c: char): nat
    requires IsDigit(c)
  {
    (c as int - '0' as int) as nat
  }

  function DigitChar(d: nat): (c: char)
    requires d < 10
    ensures IsDigit(c) && DigitValue(c) == d
  {
    ('0' as int + d) as char
  }

  /** `int(s)` for a string of decimal digits. */
  function ParseNat(s: string): nat
    requires forall i :: 0 <= i < |s| ==> IsDigit(s[i])
    decreases |s|
  {
    if s == [] then 0 else 10 * ParseNat(s[..|s| - 1]) + DigitValue(s[|s| - 1])
  }

  /** `str(n)` for a natural number: decimal, no leading zeros. */
  function NatToString(n: nat): (r: string)
    ensures IsDigits(r)
    ensures |r| > 1 ==> r[0] != '0'
    decreases n
  {
    if n < 10 then [DigitChar(n)] else NatToString(n / 10) + [DigitChar(n % 10)]
  }

  /** `str(i)` for any integer. */
  function IntToString(i: int): (r: string)
    ensures i >= 0 ==> r == NatToString(i)
    ensures i < 0 ==> r == "-" + NatToString(-i)
  {
    if i >= 0 then NatToString(i) else "-" + NatToString(-i)
  }

  /** Reading back the decimal form of `n` gives `n`. */
  lemma {:induction false} ParseNatToString(n: nat)
    ensures ParseNat(NatToString(n)) == n
    decreases n
  {
    if n >= 10 {
      ParseNatToString(n / 10);
      var s := NatToString(n);
      assert s[..|s| - 1] == NatToString(n / 10);
    }
  }

  /** The decimal form is injective. */
  lemma NatToStringInjective(a: nat, b: nat)
    requires NatToString(a) == NatToString(b)
    ensures a == b
  {
    ParseNatToString(a);
    ParseNatToString(b);
  }

  /** A digit string without superfluous leading zeros is the decimal form of its value. */
  lemma {:induction false} NatToStringParse(s: string)
    requires IsDigits(s)
    requires |s| > 1 ==> s[0] != '0'
    ensures NatToString(ParseNat(s)) == s
    decreases |s|
  {
    if |s| == 1 {
      assert ParseNat(s) == DigitValue(s[0]);
    } else {
      var p := s[..|s| - 1];
      assert p[0] == s[0];
      NatToStringParse(p);
      var n := ParseNat(s);
      assert n / 10 == ParseNat(p);
      assert n % 10 == DigitValue(s[|s| - 1]);
      if ParseNat(p) == 0 {
        ZeroDigits(p);
        assert false;
      }
    }
  }

  lemma {:induction false} ZeroDigits(s: string)
    requires IsDigits(s) && |s| > 0 && s[0] != '0'
    ensures ParseNat(s) > 0
    decreases |s|
  {
    if |s| > 1 {
      ZeroDigits(s[..|s| - 1]);
    }
  }

  /** Digits in groups joined by single underscores, as `int()` reads them
      in base 10: no leading, trailing or doubled underscore. */
  predicate IsDigitGroups(d: string) {
    && |d| > 0 && IsDigit(d[0]) && IsDigit(d[|d| - 1])
    && (forall i :: 0 <= i < |d| ==> IsDigit(d[i]) || d[i] == '_')
    && (forall i :: 0 <= i < |d| - 1 ==> d[i] == '_' ==> IsDigit(d[i + 1]))
  }

  /** The text after an optional leading sign. */
  function Unsigned(t: string): (r: string)
    ensures |r| <= |t|
  {
    if |t| > 0 && (t[0] == '+' || t[0] == '-') then t[1..] else t
  }

  /** `s` is a text Python's `int()` accepts: surrounding whitespace, an
      optional sign, then digit groups joined by single underscores. */
  predicate IsIntLiteral(s: string) {
    IsDigitGroups(Unsigned(Strip(s)))
  }

  /** The digits of a literal with its underscores removed. */
  function DropUnderscores(d: string): (r: string)
    ensures (forall i :: 0 <= i < |d| ==> IsDigit(d[i]) || d[i] == '_') ==> forall i :: 0 <= i < |r| ==> IsDigit(r[i])
    ensures (forall i :: 0 <= i < |d| ==> d[i] != '_') ==> r == d
    decreases |d|
  {
    if d == [] then []
    else
      var rest := DropUnderscores(d[1..]);
      if d[0] == '_' then rest
      else
        assert d == [d[0]] + d[1..];
        [d[0]] + rest
  }

  /** `int(s)` in base 10. */
  function ParseInt(s: string): int
    requires IsIntLiteral(s)
  {
    var t := Strip(s);
    var n: int := ParseNat(DropUnderscores(Unsigned(t)));
    if t[0] == '-' then -n else n
  }

  /** A plain digit string is read as its value. */
  lemma DigitsParseInt(s: string)
    requires IsDigits(s)
    ensures IsIntLiteral(s) && ParseInt(s) == ParseNat(s)
  {
    DigitPlain(s[0]);
    DigitPlain(s[|s| - 1]);
    StripPlain(s);
    UnsignedPlain(s);
    assert forall i :: 0 <= i < |s| ==> s[i] != '_' by {
      forall i | 0 <= i < |s| ensures s[i] != '_' {
        DigitPlain(s[i]);
      }
    }
  }

  /** A digit is neither whitespace, nor an underscore, nor a sign. */
  lemma DigitPlain(c: char)
    requires IsDigit(c)
    ensures !IsSpace(c) && c != '_' && c != '+' && c != '-'
  {
  }

  /** A text with no whitespace at either end is its own strip. */
  lemma StripPlain(s: string)
    requires |s| > 0 && !IsSpace(s[0]) && !IsSpace(s[|s| - 1])
    ensures Strip(s) == s
  {
    assert LStrip(s) == s;
    assert RStrip(s) == s;
  }

  /** Surrounding whitespace is ignored: padding a literal changes nothing. */
  lemma PaddedParseInt(sp1: string, s: string, sp2: string)
    requires AllSpace(sp1) && AllSpace(sp2) && IsIntLiteral(s)
    requires |s| > 0 && !IsSpace(s[0]) && !IsSpace(s[|s| - 1])
    ensures IsIntLiteral(sp1 + s + sp2) && ParseInt(sp1 + s + sp2) == ParseInt(s)
  {
    StripPadded(sp1, s, sp2);
    assert LStrip(s) == s;
    assert RStrip(s) == s;
  }

  lemma {:induction false} StripPadded(sp1: string, s: string, sp2: string)
    requires AllSpace(sp1) && AllSpace(sp2)
    requires |s| > 0 && !IsSpace(s[0]) && !IsSpace(s[|s| - 1])
    ensures Strip(sp1 + s + sp2) == s
    decreases |sp1| + |sp2|
  {
    if sp1 != [] {
      assert (sp1 + s + sp2)[0] == sp1[0];
      assert (sp1 + s + sp2)[1..] == sp1[1..] + s + sp2;
      StripPadded(sp1[1..], s, sp2);
      assert LStrip(sp1 + s + sp2) == LStrip(sp1[1..] + s + sp2);
    } else if sp2 != [] {
      assert sp1 + s + sp2 == s + sp2;
      assert (s + sp2)[|s + sp2| - 1] == sp2[|sp2| - 1];
      assert (s + sp2)[..|s + sp2| - 1] == s + sp2[..|sp2| - 1];
      StripPadded([], s, sp2[..|sp2| - 1]);
      assert [] + s + sp2[..|sp2| - 1] == s + sp2[..|sp2| - 1];
      assert LStrip(s + sp2) == s + sp2;
      assert LStrip(s + sp2[..|sp2| - 1]) == s + sp2[..|sp2| - 1];
    } else {
      assert sp1 + s + sp2 == s;
      assert LStrip(s) == s;
    }
  }

  /** Reading back the decimal form of an integer gives that integer. */
  lemma IntToStringParse(i: int)
    ensures IsIntLiteral(IntToString(i)) && ParseInt(IntToString(i)) == i
  {
    if i >= 0 {
      ParseNatToString(i);
      DigitsParseInt(NatToString(i));
    } else {
      ParseNatToString(-i);
      NegativeParseInt(NatToString(-i));
    }
  }

  /** A minus sign before a digit string negates its value. */
  lemma NegativeParseInt(d: string)
    requires IsDigits(d)
    ensures IsIntLiteral("-" + d) && ParseInt("-" + d) == -(ParseNat(d) as int)
  {
    var s := "-" + d;
    assert s[0] == '-' && s[1..] == d;
    assert LStrip(s) == s;
    assert RStrip(s) == s by {
      assert s[|s| - 1] == d[|d| - 1];
    }
    assert Unsigned(s) == d;
  }

  /** A single underscore between digits is read past. */
  lemma UnderscoreRead()
    ensures IsIntLiteral("1_0") && ParseInt("1_0") == 10
  {
    var s := ['1', '_', '0'];
    assert LStrip(s) == s && RStrip(s) == s;
    assert Unsigned(s) == s;
    assert DropUnderscores(s) == ['1', '0'] by {
      assert s[1..][1..] == ['0'];
      assert DropUnderscores(['0']) == ['0'];
    }
    assert ParseNat(['1', '0']) == 10 by {
      assert ['1', '0'][..1] == ['1'];
    }
  }

  lemma UnsignedPlain(t: string)
    requires |t| > 0 && t[0] != '+' && t[0] != '-'
    ensures Unsigned(t) == t
  {
  }

  /** A doubled underscore makes `int()` raise. */
  lemma DoubledUnderscoreRejected()
    ensures !IsIntLiteral("1__0")
  {
    var t := "1__0";
    assert Strip(t) == t by {
      StripPadded([], t, []);
      assert [] + t + [] == t;
    }
    assert t[0] == '1' && t[1] == '_' && t[2] == '_';
    UnsignedPlain(t);
  }

  /** A leading underscore makes `int()` raise. */
  lemma LeadingUnderscoreRejected()
    ensures !IsIntLiteral("_1")
  {
    var u := "_1";
    assert Strip(u) == u by {
      StripPadded([], u, []);
      assert [] + u + [] == u;
    }
    assert u[0] == '_';
    UnsignedPlain(u);
  }
}
