/** Character-level building blocks of eac3bot: the literal regular
    expressions it matches scanner output with, decimal numerals in both
    directions, the cleaning applied to every scanner line, and Python's
    ordering of strings (used to compare durations). */
module Text {

  const Backspace: char := '\U{8}'

  predicate IsDigit(c: char) { '0' <= c <= '9' }

  predicate AllDigits(s: string) { forall i :: 0 <= i < |s| ==> IsDigit(s[i]) }

  predicate StartsWith(s: string, prefix: string) { |prefix| <= |s| && s[..|prefix|] == prefix }

  predicate NoNewline(s: string) { forall i :: 0 <= i < |s| ==> s[i] != '\n' }

  /** The number of leading decimal digits of s: what a greedy `[0-9]+` consumes. */
  function DigitRun(s: string): (k: nat)
    ensures k <= |s|
    ensures AllDigits(s[..k])
    ensures k < |s| ==> !IsDigit(s[k])
  {
    if s == [] || !IsDigit(s[0]) then 0
    else
      var k := 1 + DigitRun(s[1..]);
      assert s[..k] == [s[0]] + s[1..][..k - 1];
      k
  }

  /** A digit run is consumed whole, and no further. */
  lemma {:induction false} DigitRunOf(digits: string, rest: string)
    requires AllDigits(digits)
    requires rest == [] || !IsDigit(rest[0])
    ensures DigitRun(digits + rest) == |digits|
  {
    if digits != [] {
      assert (digits + rest)[1..] == digits[1..] + rest;
      DigitRunOf(digits[1..], rest);
    }
  }

  function DigitValue(c: char): nat
    requires IsDigit(c)
  {
    c as int - '0' as int
  }

  function DigitChar(d: nat): (c: char)
    requires d < 10
    ensures IsDigit(c) && DigitValue(c) == d
  {
    ('0' as int + d) as char
  }

  /** Python's `int(s)` on a string of decimal digits. */
  function DigitsValue(s: string): nat
    requires AllDigits(s)
  {
    if s == [] then 0 else 10 * DigitsValue(s[..|s| - 1]) + DigitValue(s[|s| - 1])
  }

  /** Python's `'%d' % n` for a natural number n. */
  function NatToString(n: nat): (s: string)
    ensures |s| > 0 && AllDigits(s)
    ensures s[0] == '0' ==> n == 0
  {
    if n < 10 then [DigitChar(n)] else NatToString(n / 10) + [DigitChar(n % 10)]
  }

  /** Printing a number and reading it back gives the number. */
  lemma {:induction false} NatToStringRoundTrip(n: nat)
    ensures DigitsValue(NatToString(n)) == n
  {
    if n >= 10 {
      var s := NatToString(n);
      assert s[..|s| - 1] == NatToString(n / 10);
      NatToStringRoundTrip(n / 10);
    }
  }

  /** Python's `'%02d' % n`: the decimal numeral of n, zero-padded to two digits. */
  function Pad2(n: nat): (s: string)
    ensures |s| >= 2 && AllDigits(s)
    ensures DigitsValue(s) == n
    ensures |s| > 2 ==> s[0] != '0'
  {
    NatToStringRoundTrip(n);
    if n < 10 then
      var s := ['0', DigitChar(n)];
      assert s[..1] == ['0'];
      s
    else NatToString(n)
  }

  /** Python's `'%d' % i` for any integer. */
  function IntToString(i: int): (r: string)
    ensures |r| > 0 && (r[0] == '-' <==> i < 0)
    ensures i >= 0 ==> AllDigits(r) && DigitsValue(r) == i
    ensures i < 0 ==> AllDigits(r[1..]) && DigitsValue(r[1..]) == -i
  {
    if i < 0 then
      NatToStringRoundTrip(-i);
      assert ("-" + NatToString(-i))[1..] == NatToString(-i);
      "-" + NatToString(-i)
    else
      NatToStringRoundTrip(i);
      NatToString(i)
  }

  // ---------------------------------------------------------------------
  // Literal regular expressions
  // ---------------------------------------------------------------------

  /** One position of a regular expression built from literal characters
      and the `.` wildcard, which matches anything but a newline. */
  datatype Atom = Lit(c: char) | AnyChar

  /** The regular expression written as s, whose only metacharacter is `.`.
      Escaped characters (`\(`, `\)`) are written here unescaped. */
  function Regex(s: string): seq<Atom>
  {
    seq(|s|, i requires 0 <= i < |s| => if s[i] == '.' then AnyChar else Lit(s[i]))
  }

  predicate AtomMatches(a: Atom, c: char)
  {
    match a
    case Lit(d) => c == d
    case AnyChar => c != '\n'
  }

  /** `re.match(p, s)`: p matches a prefix of s. */
  predicate MatchesAt(p: seq<Atom>, s: string)
    ensures MatchesAt(p, s) ==> |p| <= |s| && forall i :: 0 <= i < |p| && p[i].Lit? ==> s[i] == p[i].c
    ensures MatchesAt(p, s) ==> forall i :: 0 <= i < |p| && p[i].AnyChar? ==> s[i] != '\n'
  {
    |p| <= |s| && forall i :: 0 <= i < |p| ==> AtomMatches(p[i], s[i])
  }

  /** `re.search(p, s)`: p matches somewhere in s. */
  predicate Search(p: seq<Atom>, s: string)
    ensures MatchesAt(p, s) ==> Search(p, s)
    ensures Search(p, s) ==> |p| <= |s|
  {
    assert s[0..] == s;
    exists i :: 0 <= i <= |s| && MatchesAt(p, s[i..])
  }

  /** A regular expression without `.` matches exactly the strings that start with it. */
  lemma LiteralMatch(lit: string, s: string)
    requires '.' !in lit
    ensures MatchesAt(Regex(lit), s) <==> StartsWith(s, lit)
  {
    assert forall i :: 0 <= i < |lit| ==> lit[i] != '.' by {
      forall i | 0 <= i < |lit| ensures lit[i] != '.' {
        assert lit[i] in lit;
      }
    }
    if |lit| <= |s| && s[..|lit|] == lit {
      forall i | 0 <= i < |lit| ensures AtomMatches(Regex(lit)[i], s[i]) {
        assert s[..|lit|][i] == s[i];
      }
    }
  }

  /** The length of the longest newline-free prefix: what a greedy `.*` consumes. */
  function LineLength(s: string): (k: nat)
    ensures k <= |s|
    ensures NoNewline(s[..k])
    ensures k < |s| ==> s[k] == '\n'
  {
    if s == [] || s[0] == '\n' then 0
    else
      var k := 1 + LineLength(s[1..]);
      assert s[..k] == [s[0]] + s[1..][..k - 1];
      k
  }

  lemma {:induction false} LineLengthOf(line: string, rest: string)
    requires NoNewline(line)
    requires rest == [] || rest[0] == '\n'
    ensures LineLength(line + rest) == |line|
  {
    if line != [] {
      assert (line + rest)[1..] == line[1..] + rest;
      LineLengthOf(line[1..], rest);
    }
  }

  // ---------------------------------------------------------------------
  // Splitting scanner output into lines
  // ---------------------------------------------------------------------

  const LineBreak := "\r\n"

  predicate NoLineBreak(s: string)
  {
    forall i :: 0 <= i < |s| - 1 ==> !(s[i] == '\r' && s[i + 1] == '\n')
  }

  /** Python's `s.split('\r\n')`: the pieces between the line breaks, from
      left to right; a string without line breaks is one piece. */
  function SplitLines(s: string): (parts: seq<string>)
    ensures |parts| > 0
    decreases |s|
  {
    if |s| < 2 then [s]
    else if s[..2] == LineBreak then [""] + SplitLines(s[2..])
    else
      var rest := SplitLines(s[1..]);
      [[s[0]] + rest[0]] + rest[1..]
  }

  /** `'\r\n'.join(parts)` */
  function JoinLines(parts: seq<string>): string
    requires |parts| > 0
  {
    if |parts| == 1 then parts[0] else parts[0] + LineBreak + JoinLines(parts[1..])
  }

  /** Joining the pieces with line breaks gives back the string. */
  lemma {:induction false} SplitLinesJoin(s: string)
    ensures JoinLines(SplitLines(s)) == s
    decreases |s|
  {
    if |s| >= 2 {
      if s[..2] == LineBreak {
        SplitLinesJoin(s[2..]);
        assert SplitLines(s)[1..] == SplitLines(s[2..]);
        assert s == LineBreak + s[2..];
      } else {
        SplitLinesJoin(s[1..]);
        JoinConsHead(s[0], SplitLines(s[1..]));
        assert s == [s[0]] + s[1..];
      }
    }
  }

  /** Putting a character in front of the first piece puts it in front of the join. */
  lemma JoinConsHead(c: char, rest: seq<string>)
    requires |rest| > 0
    ensures JoinLines([[c] + rest[0]] + rest[1..]) == [c] + JoinLines(rest)
  {
    var parts := [[c] + rest[0]] + rest[1..];
    if |rest| > 1 {
      assert parts[1..] == rest[1..];
      JoinFront(parts);
      JoinFront(rest);
      Regroup([c], rest[0], LineBreak + JoinLines(rest[1..]));
    } else {
      assert parts == [[c] + rest[0]];
    }
  }

  lemma JoinFront(parts: seq<string>)
    requires |parts| > 1
    ensures JoinLines(parts) == parts[0] + (LineBreak + JoinLines(parts[1..]))
  {
  }

  lemma Regroup(a: string, b: string, c: string)
    ensures (a + b) + c == a + (b + c)
  {
  }

  /** The first piece is a prefix of the string. */
  lemma SplitLinesHead(s: string)
    ensures StartsWith(s, SplitLines(s)[0])
  {
    var parts := SplitLines(s);
    SplitLinesJoin(s);
    if |parts| > 1 {
      assert JoinLines(parts) == parts[0] + (LineBreak + JoinLines(parts[1..]));
    }
  }

  /** No piece holds a line break. */
  lemma {:induction false} SplitLinesPieces(s: string)
    ensures forall i :: 0 <= i < |SplitLines(s)| ==> NoLineBreak(SplitLines(s)[i])
    decreases |s|
  {
    if |s| >= 2 {
      var parts := SplitLines(s);
      if s[..2] == LineBreak {
        SplitLinesPieces(s[2..]);
        forall i | 0 <= i < |parts| ensures NoLineBreak(parts[i]) {
          if i > 0 {
            assert parts[i] == SplitLines(s[2..])[i - 1];
          }
        }
      } else {
        SplitLinesPieces(s[1..]);
        SplitLinesHead(s[1..]);
        var rest := SplitLines(s[1..]);
        var head := [s[0]] + rest[0];
        assert parts == [head] + rest[1..];
        forall i | 0 <= i < |parts| ensures NoLineBreak(parts[i]) {
          if i == 0 {
            forall j | 0 <= j < |head| - 1 ensures !(head[j] == '\r' && head[j + 1] == '\n') {
              if j == 0 {
                assert head[1] == s[1];
              } else {
                assert head[j] == rest[0][j - 1] && head[j + 1] == rest[0][j];
              }
            }
          } else {
            assert parts[i] == rest[i];
          }
        }
      }
    }
  }

  lemma {:induction false} SplitLinesBefore(p: string, t: string)
    requires NoLineBreak(p)
    ensures SplitLines(p + LineBreak + t) == [p] + SplitLines(t)
    decreases |p|
  {
    var s := p + LineBreak + t;
    if p == [] {
      assert s[..2] == LineBreak && s[2..] == t;
    } else {
      assert s[0] == p[0];
      assert s[1] == if |p| >= 2 then p[1] else '\r';
      assert s[..2] != LineBreak;
      assert s[1..] == p[1..] + LineBreak + t;
      SplitLinesBefore(p[1..], t);
      assert [p[0]] + p[1..] == p;
    }
  }

  lemma {:induction false} SplitLinesSingle(p: string)
    requires NoLineBreak(p)
    ensures SplitLines(p) == [p]
    decreases |p|
  {
    if |p| >= 2 {
      assert p[..2] != LineBreak by {
        assert !(p[0] == '\r' && p[1] == '\n');
      }
      SplitLinesSingle(p[1..]);
      assert [p[0]] + p[1..] == p;
    }
  }

  /** Splitting pieces joined with line breaks gives back the pieces, when
      none of them holds a line break. */
  lemma {:induction false} JoinLinesSplit(parts: seq<string>)
    requires |parts| > 0
    requires forall i :: 0 <= i < |parts| ==> NoLineBreak(parts[i])
    ensures SplitLines(JoinLines(parts)) == parts
  {
    if |parts| == 1 {
      SplitLinesSingle(parts[0]);
    } else {
      JoinLinesSplit(parts[1..]);
      SplitLinesBefore(parts[0], JoinLines(parts[1..]));
      assert [parts[0]] + parts[1..] == parts;
    }
  }

  // ---------------------------------------------------------------------
  // Line cleaning
  // ---------------------------------------------------------------------

  /** How many copies of c begin s. */
  function LeadingCount(s: string, c: char): (k: nat)
    ensures k <= |s|
    ensures forall i :: 0 <= i < k ==> s[i] == c
    ensures k < |s| ==> s[k] != c
  {
    if s == [] || s[0] != c then 0 else 1 + LeadingCount(s[1..], c)
  }

  /** How many copies of c end s. */
  function TrailingCount(s: string, c: char): (k: nat)
    ensures k <= |s|
    ensures forall i :: |s| - k <= i < |s| ==> s[i] == c
    ensures k < |s| ==> s[|s| - 1 - k] != c
  {
    if s == [] || s[|s| - 1] != c then 0 else 1 + TrailingCount(s[..|s| - 1], c)
  }

  /** Python's `s.strip(c)` for one character c. */
  function Strip(s: string, c: char): (r: string)
    ensures LeadingCount(s, c) + |r| <= |s| && r == s[LeadingCount(s, c)..LeadingCount(s, c) + |r|]
    ensures forall i :: 0 <= i < LeadingCount(s, c) || LeadingCount(s, c) + |r| <= i < |s| ==> s[i] == c
    ensures r != [] ==> r[0] != c && r[|r| - 1] != c
  {
    var t := s[LeadingCount(s, c)..];
    t[..|t| - TrailingCount(t, c)]
  }

  /** Python's `s.rstrip(c)` for one character c. */
  function RStrip(s: string, c: char): (r: string)
    ensures |r| <= |s| && r == s[..|r|]
    ensures forall i :: |r| <= i < |s| ==> s[i] == c
    ensures r != [] ==> r[|r| - 1] != c
  {
    s[..|s| - TrailingCount(s, c)]
  }

  /** `line.strip('\x08').rstrip(' ')`, applied to every scanner line. */
  function CleanLine(line: string): (r: string)
    ensures |r| > 0 ==> r[0] != Backspace && r[|r| - 1] != ' '
  {
    RStrip(Strip(line, Backspace), ' ')
  }

  /** r is line without its first `front` characters, all backspaces, and
      its last `back` characters, all backspaces or spaces. */
  predicate TrimmedFrom(line: string, r: string, front: nat, back: nat)
  {
    front + back <= |line| &&
    line[front..|line| - back] == r &&
    (forall i :: 0 <= i < front ==> line[i] == Backspace) &&
    (forall i :: |line| - back <= i < |line| ==> line[i] == Backspace || line[i] == ' ')
  }

  /** How many characters cleaning takes off the front and off the back. */
  function CleanFront(line: string): nat
  {
    LeadingCount(line, Backspace)
  }

  function CleanBack(line: string): nat
  {
    TrailingCount(line[CleanFront(line)..], Backspace) + TrailingCount(Strip(line, Backspace), ' ')
  }

  /** Cleaning removes backspaces in front, and backspaces and spaces
      behind, and keeps the rest of the line unchanged. */
  lemma CleanLineInfix(line: string)
    ensures exists front: nat, back: nat :: TrimmedFrom(line, CleanLine(line), front, back)
  {
    CleanLineSlice(line);
    CleanLineTail(line);
    assert TrimmedFrom(line, CleanLine(line), CleanFront(line), CleanBack(line));
  }

  lemma CleanLineSlice(line: string)
    ensures CleanFront(line) + CleanBack(line) <= |line|
    ensures CleanLine(line) == line[CleanFront(line)..|line| - CleanBack(line)]
  {
    var front := CleanFront(line);
    var k := TrailingCount(line[front..], Backspace);
    var s := Strip(line, Backspace);
    var m := TrailingCount(s, ' ');
    StripSlice(line, Backspace);
    assert |s| == |line| - front - k;
    assert CleanLine(line) == s[..|s| - m];
    SliceOfSlice(line, front, |line| - k, |s| - m);
    assert front + (|s| - m) == |line| - CleanBack(line);
  }

  lemma StripSlice(s: string, c: char)
    ensures LeadingCount(s, c) + TrailingCount(s[LeadingCount(s, c)..], c) <= |s|
    ensures Strip(s, c) == s[LeadingCount(s, c)..|s| - TrailingCount(s[LeadingCount(s, c)..], c)]
  {
  }

  lemma SliceOfSlice(s: string, a: nat, b: nat, c: nat)
    requires a <= b <= |s| && c <= b - a
    ensures s[a..b][..c] == s[a..a + c]
  {
  }

  /** The characters cleaning takes off the end are backspaces and spaces. */
  lemma CleanLineTail(line: string)
    ensures CleanBack(line) <= |line|
    ensures forall i :: |line| - CleanBack(line) <= i < |line| ==> line[i] == Backspace || line[i] == ' '
  {
    var front := CleanFront(line);
    var t := line[front..];
    var k := TrailingCount(t, Backspace);
    var s := Strip(line, Backspace);
    var m := TrailingCount(s, ' ');
    StripSlice(line, Backspace);
    forall i | |line| - (k + m) <= i < |line|
      ensures line[i] == Backspace || line[i] == ' '
    {
      var j := i - front;
      if i < |line| - k {
        assert |s| - m <= j < |s| && s[j] == ' ';
        assert line[i] == s[j];
      } else {
        assert |t| - k <= j < |t| && t[j] == Backspace;
        assert line[i] == t[j];
      }
    }
  }

  /** Cleaning a line that already neither starts with a backspace nor ends
      in a backspace or a space changes nothing. */
  lemma CleanLineKeepsClean(line: string)
    requires |line| > 0 ==> line[0] != Backspace && line[|line| - 1] != Backspace && line[|line| - 1] != ' '
    ensures CleanLine(line) == line
  {
    assert line[0..] == line;
    assert line[..|line|] == line;
  }

  // ---------------------------------------------------------------------
  // String order
  // ---------------------------------------------------------------------

  /** Python's `a < b` on strings: the first differing character decides,
      and a proper prefix comes first. */
  predicate LexLess(a: string, b: string)
    ensures LexLess(a, b) ==> a != b
    ensures |a| < |b| && a == b[..|a|] ==> LexLess(a, b)
    decreases |a|
  {
    |b| > 0 && (|a| == 0 || a[0] < b[0] || (a[0] == b[0] && LexLess(a[1..], b[1..])))
  }

  lemma {:induction false} LexLessIrreflexive(a: string)
    ensures !LexLess(a, a)
    decreases |a|
  {
    if |a| > 0 {
      LexLessIrreflexive(a[1..]);
    }
  }

  lemma {:induction false} LexLessTransitive(a: string, b: string, c: string)
    requires LexLess(a, b) && LexLess(b, c)
    ensures LexLess(a, c)
    decreases |a|
  {
    if |a| > 0 && a[0] == b[0] && b[0] == c[0] {
      LexLessTransitive(a[1..], b[1..], c[1..]);
    }
  }

  lemma {:induction false} LexLessTotal(a: string, b: string)
    ensures a == b || LexLess(a, b) || LexLess(b, a)
    decreases |a|
  {
    if |a| > 0 && |b| > 0 && a[0] == b[0] {
      LexLessTotal(a[1..], b[1..]);
      if a[1..] == b[1..] {
        assert a == [a[0]] + a[1..] && b == [b[0]] + b[1..];
      }
    }
  }
}
