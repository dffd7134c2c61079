/**
 * The handful of Python `str` built-ins the log analyzer relies on, stated over
 * `seq<char>`: `lower`, the `in` substring test, `startswith`/`endswith`, `strip`,
 * `splitlines`, `join`, `int()` on a decimal literal and `str()` of an integer.
 */
module Text {
  import opened Wrappers

  // ---------------------------------------------------------------------------
  // Case folding and affixes
  // ---------------------------------------------------------------------------

  predicate IsUpper(c: char) {
    'A' <= c <= 'Z'
  }

  function LowerChar(c: char): char {
    if IsUpper(c) then (c as int - 'A' as int + 'a' as int) as char else c
  }

  /** `str.lower`, restricted to the ASCII letters: no upper-case letter is left, an
      upper-case letter becomes the letter 32 code points above it, and every other
      character stays as it is. */
  function Lower(s: string): (r: string)
    ensures |r| == |s|
    ensures forall i :: 0 <= i < |r| ==> !IsUpper(r[i])
    ensures forall i :: 0 <= i < |s| && !IsUpper(s[i]) ==> r[i] == s[i]
    ensures forall i :: 0 <= i < |s| && IsUpper(s[i]) ==> r[i] as int == s[i] as int + 32
  {
    seq(|s|, i requires 0 <= i < |s| => LowerChar(s[i]))
  }

  /** Lowering twice is lowering once. */
  lemma LowerIdempotent(s: string)
    ensures Lower(Lower(s)) == Lower(s)
  {
    var l := Lower(s);
    assert forall i :: 0 <= i < |l| ==> Lower(l)[i] == l[i];
  }

  predicate StartsWith(s: string, prefix: string) {
    |prefix| <= |s| && s[..|prefix|] == prefix
  }

  predicate EndsWith(s: string, suffix: string) {
    |suffix| <= |s| && s[|s| - |suffix|..] == suffix
  }

  // ---------------------------------------------------------------------------
  // The `needle in hay` test
  // ---------------------------------------------------------------------------

  predicate OccursAt(hay: string, needle: string, i: nat) {
    i + |needle| <= |hay| && hay[i..i + |needle|] == needle
  }

  /** `needle in hay`: some window of `hay` equals `needle` (always true for ""). */
  function Contains(hay: string, needle: string): (r: bool)
    ensures r <==> exists i: nat :: OccursAt(hay, needle, i)
    decreases |hay|
  {
    if |needle| > |hay| then
      false
    else if hay[..|needle|] == needle then
      assert OccursAt(hay, needle, 0);
      true
    else
      var rest := Contains(hay[1..], needle);
      ShiftOccurrence(hay, needle);
      rest
  }

  lemma ShiftOccurrence(hay: string, needle: string)
    requires |hay| > 0 && !OccursAt(hay, needle, 0)
    ensures (exists i: nat :: OccursAt(hay[1..], needle, i)) <==> (exists i: nat :: OccursAt(hay, needle, i))
  {
    forall i: nat | OccursAt(hay[1..], needle, i)
      ensures OccursAt(hay, needle, i + 1)
    {
      assert hay[1..][i..i + |needle|] == hay[i + 1..i + 1 + |needle|];
    }
    forall i: nat | OccursAt(hay, needle, i)
      ensures i > 0 && OccursAt(hay[1..], needle, i - 1)
    {
      assert hay[1..][i - 1..i - 1 + |needle|] == hay[i..i + |needle|];
    }
  }

  // ---------------------------------------------------------------------------
  // `str.strip()`
  // ---------------------------------------------------------------------------

  /** The characters for which Python's `str.isspace` holds. */
  predicate IsSpace(c: char) {
    var k := c as int;
    k == 0x20 || 0x09 <= k <= 0x0D || 0x1C <= k <= 0x1F || k == 0x85 || k == 0xA0
    || k == 0x1680 || 0x2000 <= k <= 0x200A || k == 0x2028 || k == 0x2029
    || k == 0x202F || k == 0x205F || k == 0x3000
  }

  function StripLeft(s: string): (r: string)
    ensures |r| <= |s| && r == s[|s| - |r|..]
    ensures |r| > 0 ==> !IsSpace(r[0])
  {
    if |s| > 0 && IsSpace(s[0]) then StripLeft(s[1..]) else s
  }

  /** What `StripLeft` drops is whitespace. */
  lemma {:induction false} StripLeftDropsSpaces(s: string)
    ensures forall i :: 0 <= i < |s| - |StripLeft(s)| ==> IsSpace(s[i])
  {
    if |s| > 0 && IsSpace(s[0]) {
      StripLeftDropsSpaces(s[1..]);
      assert forall i :: 1 <= i < |s| ==> s[i] == s[1..][i - 1];
    }
  }

  function StripRight(s: string): (r: string)
    ensures |r| <= |s| && r == s[..|r|]
    ensures |r| > 0 ==> !IsSpace(r[|r| - 1])
  {
    if |s| > 0 && IsSpace(s[|s| - 1]) then StripRight(s[..|s| - 1]) else s
  }

  /** What `StripRight` drops is whitespace. */
  lemma {:induction false} StripRightDropsSpaces(s: string)
    ensures forall i :: |StripRight(s)| <= i < |s| ==> IsSpace(s[i])
  {
    if |s| > 0 && IsSpace(s[|s| - 1]) {
      StripRightDropsSpaces(s[..|s| - 1]);
    }
  }

  /** `str.strip()`: drop leading and trailing whitespace. */
  function Strip(s: string): string {
    StripRight(StripLeft(s))
  }

  /** `strip` keeps a slice of its input with no whitespace at either end, and empties
      exactly the all-whitespace strings. */
  lemma StripSpec(s: string)
    ensures |Strip(s)| <= |s|
    ensures |Strip(s)| > 0 ==> !IsSpace(Strip(s)[0]) && !IsSpace(Strip(s)[|Strip(s)| - 1])
    ensures (forall i :: 0 <= i < |s| ==> IsSpace(s[i])) <==> Strip(s) == []
  {
    var l := StripLeft(s);
    var d := |s| - |l|;
    StripLeftDropsSpaces(s);
    StripRightDropsSpaces(l);
    if |l| > 0 {
      assert l[0] == s[d];
    }
  }

  /** Neither '-' nor a digit is whitespace. */
  lemma SignOrDigitIsNotSpace(c: char)
    requires c == '-' || IsDigit(c)
    ensures !IsSpace(c)
  {
  }

  /** A string `strip` leaves alone. */
  lemma StripTrimmed(s: string)
    requires |s| > 0 && !IsSpace(s[0]) && !IsSpace(s[|s| - 1])
    ensures Strip(s) == s
  {
    assert StripLeft(s) == s;
  }

  /** `strip` drops a leading space. */
  lemma StripLeadingSpace(s: string)
    ensures Strip(" " + s) == Strip(s)
  {
    assert (" " + s)[1..] == s;
    assert StripLeft(" " + s) == StripLeft(s);
  }

  // ---------------------------------------------------------------------------
  // `str.splitlines()`
  // ---------------------------------------------------------------------------

  /** The line boundaries recognised by Python's `str.splitlines`. */
  predicate IsLineBoundary(c: char) {
    var k := c as int;
    0x0A <= k <= 0x0D || 0x1C <= k <= 0x1E || k == 0x85 || k == 0x2028 || k == 0x2029
  }

  /** Index of the first line boundary in `s`, or `|s|` when there is none. */
  function BoundaryIndex(s: string): (i: nat)
    ensures i <= |s|
    ensures i < |s| ==> IsLineBoundary(s[i])
  {
    if s == [] || IsLineBoundary(s[0]) then 0 else 1 + BoundaryIndex(s[1..])
  }

  /** No boundary comes before the first one. */
  lemma {:induction false} BeforeBoundary(s: string)
    ensures forall j :: 0 <= j < BoundaryIndex(s) ==> !IsLineBoundary(s[j])
  {
    if s != [] && !IsLineBoundary(s[0]) {
      BeforeBoundary(s[1..]);
      assert forall j :: 1 <= j < |s| ==> s[j] == s[1..][j - 1];
    }
  }

  /** The length of the boundary at `i`: "\r\n" is one boundary of two characters. */
  function BreakWidth(s: string, i: nat): (w: nat)
    requires i < |s|
    ensures 1 <= w <= 2 && i + w <= |s|
  {
    if s[i] == '\r' && i + 1 < |s| && s[i + 1] == '\n' then 2 else 1
  }

  /** One line boundary as `splitlines` consumes it: "\r\n", or a single boundary
      character. */
  predicate IsBreak(b: string) {
    b == "\r\n" || (|b| == 1 && IsLineBoundary(b[0]))
  }

  lemma SliceThree<T>(s: seq<T>, i: nat, j: nat)
    requires i <= j <= |s|
    ensures s == s[..i] + s[i..j] + s[j..]
  {
  }

  /** The first line of a non-empty string, the boundary that ends it ("" when there is
      none), and what follows: together they are the string, and only a line with no
      boundary after it can end the string. */
  function Cut(s: string): (c: (string, string, string))
    requires s != []
    ensures c.0 + c.1 + c.2 == s
    ensures |c.2| < |s|
    ensures c.1 == [] ==> c.2 == []
  {
    var i := BoundaryIndex(s);
    if i == |s| then
      (s, [], [])
    else
      var j := i + BreakWidth(s, i);
      SliceThree(s, i, j);
      (s[..i], s[i..j], s[j..])
  }

  /** The line holds no boundary, what ends it is one boundary, and a lone "\r" is not
      followed by "\n". */
  lemma CutSpec(s: string)
    requires s != []
    ensures IsBreak(Cut(s).1) || Cut(s).1 == []
    ensures forall j :: 0 <= j < |Cut(s).0| ==> !IsLineBoundary(Cut(s).0[j])
    ensures Cut(s).1 == "\r" && Cut(s).2 != [] ==> Cut(s).2[0] != '\n'
  {
    var i := BoundaryIndex(s);
    BeforeBoundary(s);
    if i < |s| {
      var j := i + BreakWidth(s, i);
      if j == i + 2 {
        assert s[i..j] == "\r\n";
      } else {
        assert s[i..j] == [s[i]];
      }
      assert forall k :: 0 <= k < i ==> s[..i][k] == s[k];
    }
  }

  /** `str.splitlines()` without the boundaries: `\r\n` counts as one boundary, and a
      boundary at the very end does not open an empty last line. */
  function SplitLines(s: string): (lines: seq<string>)
    ensures lines == [] <==> s == []
    decreases |s|
  {
    if s == [] then [] else [Cut(s).0] + SplitLines(Cut(s).2)
  }

  /** No line `SplitLines` returns holds a line boundary. */
  lemma {:induction false} SplitLinesHaveNoBoundaries(s: string)
    ensures forall k, j :: 0 <= k < |SplitLines(s)| && 0 <= j < |SplitLines(s)[k]| ==>
      !IsLineBoundary(SplitLines(s)[k][j])
    decreases |s|
  {
    if s != [] {
      var c := Cut(s);
      var lines, rest := SplitLines(s), SplitLines(c.2);
      CutSpec(s);
      SplitLinesHaveNoBoundaries(c.2);
      assert lines == [c.0] + rest;
      forall k, j | 0 <= k < |lines| && 0 <= j < |lines[k]|
        ensures !IsLineBoundary(lines[k][j])
      {
        if k > 0 {
          assert lines[k] == rest[k - 1];
        }
      }
    }
  }

  /** The boundaries `SplitLines` cuts `s` at, one after each line; the last line has
      none when `s` does not end with a boundary. */
  ghost function Breaks(s: string): seq<string>
    decreases |s|
  {
    if s == [] then [] else [Cut(s).1] + Breaks(Cut(s).2)
  }

  /** Each line followed by its boundary. */
  function Pieces(lines: seq<string>, breaks: seq<string>): seq<string>
    requires |breaks| == |lines|
  {
    seq(|lines|, k requires 0 <= k < |lines| => lines[k] + breaks[k])
  }

  /** `breaks` are the boundaries after `lines`: each a boundary, except that the last
      line may have none; no line together with its boundary is empty (so a final
      boundary opens no empty line); and a lone "\r" is never followed by "\n". */
  ghost predicate LineBreaks(lines: seq<string>, breaks: seq<string>) {
    && |breaks| == |lines|
    && (forall k :: 0 <= k < |breaks| ==> IsBreak(breaks[k]) || (k == |breaks| - 1 && breaks[k] == []))
    && (forall k :: 0 <= k < |breaks| ==> lines[k] + breaks[k] != [])
    && (forall k :: 0 <= k < |breaks| - 1 ==> LoneCrAt(lines, breaks, k))
  }

  /** If the boundary after line `k` is a lone "\r", what follows it does not start
      with "\n". */
  predicate LoneCrAt(lines: seq<string>, breaks: seq<string>, k: nat)
    requires |breaks| == |lines| && k + 1 < |lines|
  {
    breaks[k] == "\r" ==> lines[k + 1] + breaks[k + 1] != [] && (lines[k + 1] + breaks[k + 1])[0] != '\n'
  }

  lemma ConcatHead(items: seq<string>)
    requires |items| > 0 && items[0] != []
    ensures Concat(items) != [] && Concat(items)[0] == items[0][0]
  {
  }

  lemma PiecesCons(line: string, b: string, lines: seq<string>, breaks: seq<string>)
    requires |breaks| == |lines|
    ensures Pieces([line] + lines, [b] + breaks) == [line + b] + Pieces(lines, breaks)
  {
  }

  /** One more line with its boundary in front keeps `LineBreaks`. */
  lemma LineBreaksCons(line: string, b: string, lines: seq<string>, breaks: seq<string>)
    requires IsBreak(b) || (b == [] && lines == [])
    requires line + b != [] && LineBreaks(lines, breaks)
    requires b == "\r" && lines != [] ==> lines[0] + breaks[0] != [] && (lines[0] + breaks[0])[0] != '\n'
    ensures LineBreaks([line] + lines, [b] + breaks)
  {
    var ls, bs := [line] + lines, [b] + breaks;
    forall k | 0 <= k < |bs|
      ensures IsBreak(bs[k]) || (k == |bs| - 1 && bs[k] == [])
      ensures ls[k] + bs[k] != []
    {
      if k > 0 {
        assert ls[k] == lines[k - 1] && bs[k] == breaks[k - 1];
      }
    }
    forall k | 0 <= k < |bs| - 1
      ensures LoneCrAt(ls, bs, k)
    {
      assert ls[k + 1] == lines[k] && bs[k + 1] == breaks[k];
      if k > 0 {
        assert LoneCrAt(lines, breaks, k - 1);
      }
    }
  }

  /** A line, its boundary and the rebuilt rest rebuild the whole. */
  lemma RebuildStep(line: string, b: string, tail: string, rest: seq<string>, rb: seq<string>)
    requires IsBreak(b) || (b == [] && tail == [])
    requires line + b != []
    requires LineBreaks(rest, rb) && Concat(Pieces(rest, rb)) == tail
    requires rest == [] <==> tail == []
    requires b == "\r" && tail != [] ==> tail[0] != '\n'
    ensures LineBreaks([line] + rest, [b] + rb)
    ensures Concat(Pieces([line] + rest, [b] + rb)) == line + b + tail
  {
    if b == "\r" && rest != [] {
      ConcatHead(Pieces(rest, rb));
    }
    LineBreaksCons(line, b, rest, rb);
    PiecesCons(line, b, rest, rb);
    var p := Pieces([line] + rest, [b] + rb);
    assert p[1..] == Pieces(rest, rb);
  }

  /** The input is the lines `splitlines` returns, each followed by the boundary that
      ended it. */
  lemma {:induction false} SplitLinesRebuild(s: string)
    ensures |Breaks(s)| == |SplitLines(s)|
    ensures LineBreaks(SplitLines(s), Breaks(s))
    ensures Concat(Pieces(SplitLines(s), Breaks(s))) == s
    decreases |s|
  {
    if s != [] {
      var c := Cut(s);
      CutSpec(s);
      SplitLinesRebuild(c.2);
      assert SplitLines(s) == [c.0] + SplitLines(c.2);
      assert Breaks(s) == [c.1] + Breaks(c.2);
      RebuildStep(c.0, c.1, c.2, SplitLines(c.2), Breaks(c.2));
    }
  }

  // ---------------------------------------------------------------------------
  // `sep.join(items)`
  // ---------------------------------------------------------------------------

  function Join(sep: string, items: seq<string>): string {
    if |items| == 0 then "" else if |items| == 1 then items[0] else items[0] + sep + Join(sep, items[1..])
  }

  /** Concatenation regroups freely; a fact to call on where the context is large. */
  lemma AppendAssoc<T>(x: seq<T>, y: seq<T>, z: seq<T>)
    ensures x + (y + z) == (x + y) + z
  {
  }

  /** Appending nothing changes nothing. */
  lemma AppendEmpty<T>(x: seq<T>)
    ensures x + [] == x
  {
  }

  /** `"".join(items)`. */
  function Concat(items: seq<string>): string {
    if items == [] then "" else items[0] + Concat(items[1..])
  }

  lemma {:induction false} ConcatAppend(a: seq<string>, b: seq<string>)
    ensures Concat(a + b) == Concat(a) + Concat(b)
  {
    if a == [] {
      assert a + b == b;
    } else {
      assert (a + b)[1..] == a[1..] + b;
      ConcatAppend(a[1..], b);
    }
  }

  // ---------------------------------------------------------------------------
  // Decimal integers: `str(n)` and `int(s)`
  // ---------------------------------------------------------------------------

  predicate IsDigit(c: char) {
    '0' <= c <= '9'
  }

  function DigitChar(d: nat): (c: char)
    requires d < 10
    ensures IsDigit(c)
  {
    ('0' as int + d) as char
  }

  function DigitOf(c: char): (d: nat)
    requires IsDigit(c)
    ensures d < 10 && DigitChar(d) == c
  {
    c as int - '0' as int
  }

  /** `str(n)` for a natural number: no sign, no leading zero. */
  function NatToString(n: nat): (s: string)
    ensures |s| > 0
    ensures forall i :: 0 <= i < |s| ==> IsDigit(s[i])
    ensures n < 10 <==> |s| == 1
    ensures s[0] == '0' <==> n == 0
  {
    if n < 10 then [DigitChar(n)] else NatToString(n / 10) + [DigitChar(n % 10)]
  }

  /** `str(i)` for any integer. */
  function IntToString(i: int): string {
    if i < 0 then "-" + NatToString(-i) else NatToString(i)
  }

  /** `str(i)` starts with a digit or '-' and ends with a digit. */
  lemma IntToStringEdges(i: int)
    ensures |IntToString(i)| > 0
    ensures IntToString(i)[0] == '-' || IsDigit(IntToString(i)[0])
    ensures IsDigit(IntToString(i)[|IntToString(i)| - 1])
  {
  }

  /** The value of decimal digits with single underscores between them, as `int()`
      reads them after the sign; `None` for anything else (an empty string, a
      leading, trailing or doubled underscore, any other character). Read from the
      right: the last character is a digit, and one underscore may precede it. */
  function ParseDigits(s: string): (r: Option<nat>)
    ensures r.Some? ==> |s| > 0 && IsDigit(s[0]) && IsDigit(s[|s| - 1])
  {
    if s == [] || !IsDigit(s[|s| - 1]) then
      None
    else if |s| == 1 then
      Some(DigitOf(s[0]))
    else
      var init := s[..|s| - 1];
      var head := if init[|init| - 1] == '_' then init[..|init| - 1] else init;
      match ParseDigits(head)
      case None => None
      case Some(n) => Some(n * 10 + DigitOf(s[|s| - 1]))
  }

  /** Python's default limit on the number of digits `int()` converts from a string
      (`sys.get_int_max_str_digits()`); longer literals raise ValueError. */
  const MaxIntStrDigits := 4300

  /** The text after an optional leading sign. */
  function IntBody(s: string): string {
    if |s| > 0 && (s[0] == '-' || s[0] == '+') then s[1..] else s
  }

  /** The literal has no more digits than `int()` converts. */
  predicate WithinDigitLimit(s: string) {
    |DropUnderscores(IntBody(s))| <= MaxIntStrDigits
  }

  /** `int(s)` on an already stripped string: an optional sign, then at most 4300
      decimal digits with single underscores between them; anything else is the
      ValueError case, `None`. */
  function ParseInt(s: string): (r: Option<int>)
    ensures r.Some? ==> |s| > 0
    ensures s == [] ==> r == None
    ensures !WithinDigitLimit(s) ==> r == None
  {
    if !WithinDigitLimit(s) then
      None
    else if |s| > 0 && (s[0] == '-' || s[0] == '+') then
      match ParseDigits(s[1..])
      case None => None
      case Some(n) => Some(if s[0] == '-' then -(n as int) else n as int)
    else
      ParseDigits(s)
  }

  /** Decimal digits with single underscores between them: non-empty, starting and
      ending with a digit, with no two underscores side by side. */
  predicate IsDigitRun(s: string) {
    && |s| > 0
    && IsDigit(s[0])
    && IsDigit(s[|s| - 1])
    && (forall i :: 0 <= i < |s| ==> IsDigit(s[i]) || s[i] == '_')
    && (forall i :: 0 <= i < |s| - 1 ==> !(s[i] == '_' && s[i + 1] == '_'))
  }

  /** What `int()` accepts after stripping: an optional sign, then a digit run. */
  predicate IsIntLiteral(s: string) {
    |s| > 0 && if s[0] == '+' || s[0] == '-' then IsDigitRun(s[1..]) else IsDigitRun(s)
  }

  /** `s` without its underscores. */
  function DropUnderscores(s: string): string {
    if s == [] then [] else DropUnderscores(s[..|s| - 1]) + (if s[|s| - 1] == '_' then [] else [s[|s| - 1]])
  }

  /** The value of a string of decimal digits, read left to right (0 for ""). */
  function DigitsValue(d: string): nat {
    if d == [] then 0 else DigitsValue(d[..|d| - 1]) * 10 + (if IsDigit(d[|d| - 1]) then DigitOf(d[|d| - 1]) else 0)
  }

  /** Peeling the last digit (and an underscore before it) off a digit run leaves a
      digit run, and conversely. */
  lemma DigitRunPeel(s: string)
    requires |s| >= 2 && IsDigit(s[|s| - 1])
    ensures var init := s[..|s| - 1];
      var head := if init[|init| - 1] == '_' then init[..|init| - 1] else init;
      IsDigitRun(s) <==> IsDigitRun(head)
  {
    var init := s[..|s| - 1];
    var head := if init[|init| - 1] == '_' then init[..|init| - 1] else init;
    if IsDigitRun(s) && init[|init| - 1] == '_' {
      assert s[|s| - 2] == '_';
      assert |s| >= 3 && s[|s| - 3] != '_';
    }
    if IsDigitRun(head) {
      assert forall i :: 0 <= i < |head| ==> s[i] == head[i];
    }
  }

  /** `ParseDigits` accepts exactly the digit runs, and reads them with the
      underscores removed. */
  lemma {:induction false} ParseDigitsSpec(s: string)
    ensures ParseDigits(s).Some? <==> IsDigitRun(s)
    ensures ParseDigits(s).Some? ==> ParseDigits(s).value == DigitsValue(DropUnderscores(s))
    decreases |s|
  {
    if s == [] || !IsDigit(s[|s| - 1]) {
    } else if |s| == 1 {
      assert DropUnderscores(s) == [s[0]];
    } else {
      var init := s[..|s| - 1];
      var head := if init[|init| - 1] == '_' then init[..|init| - 1] else init;
      ParseDigitsSpec(head);
      DigitRunPeel(s);
      if IsDigitRun(s) {
        assert DropUnderscores(s) == DropUnderscores(init) + [s[|s| - 1]];
        if init[|init| - 1] == '_' {
          assert DropUnderscores(init) == DropUnderscores(head) + [];
        }
        var d := DropUnderscores(s);
        assert d[..|d| - 1] == DropUnderscores(head);
      }
    }
  }

  /** `int()` accepts exactly the integer literals, with the sign applied to the value
      of the digits with the underscores removed. */
  lemma ParseIntSpec(s: string)
    ensures ParseInt(s).Some? <==> IsIntLiteral(s) && WithinDigitLimit(s)
    ensures ParseInt(s).Some? ==>
      ParseInt(s).value == (if s[0] == '-' then -1 else 1)
        * DigitsValue(DropUnderscores(if s[0] == '+' || s[0] == '-' then s[1..] else s))
  {
    if |s| > 0 && (s[0] == '-' || s[0] == '+') {
      ParseDigitsSpec(s[1..]);
    } else {
      ParseDigitsSpec(s);
    }
  }

  /** Reading back `str(n)` gives `n`. */
  lemma {:induction false} ParseDigitsOfNatToString(n: nat)
    ensures ParseDigits(NatToString(n)) == Some(n)
  {
    if n >= 10 {
      var s := NatToString(n);
      ParseDigitsOfNatToString(n / 10);
      assert s[..|s| - 1] == NatToString(n / 10);
    }
  }

  /** A string of digits has no underscores to drop. */
  lemma {:induction false} DropUnderscoresOfDigits(d: string)
    requires forall i :: 0 <= i < |d| ==> IsDigit(d[i])
    ensures DropUnderscores(d) == d
  {
    if d != [] {
      DropUnderscoresOfDigits(d[..|d| - 1]);
    }
  }

  /** `int()` on the digits of `str(n)`. */
  lemma ParseIntOfDigits(n: nat)
    ensures ParseInt(NatToString(n)) == if |NatToString(n)| > MaxIntStrDigits then None else Some(n)
  {
    var digits := NatToString(n);
    assert IntBody(digits) == digits;
    assert WithinDigitLimit(digits) <==> |digits| <= MaxIntStrDigits by {
      DropUnderscoresOfDigits(digits);
    }
    if |digits| <= MaxIntStrDigits {
      ParseDigitsOfNatToString(n);
    }
  }

  /** `int()` on "-" and the digits of `str(n)`. */
  lemma ParseIntOfNegatedDigits(n: nat)
    ensures ParseInt("-" + NatToString(n)) == if |NatToString(n)| > MaxIntStrDigits then None else Some(-(n as int))
  {
    var digits := NatToString(n);
    var s := "-" + digits;
    assert s[0] == '-' && s[1..] == digits;
    assert WithinDigitLimit(s) <==> |digits| <= MaxIntStrDigits by {
      DropUnderscoresOfDigits(digits);
    }
    if |digits| <= MaxIntStrDigits {
      assert ParseDigits(s[1..]) == Some(n) by {
        ParseDigitsOfNatToString(n);
      }
    }
  }

  /** `int(str(i)) == i` for every integer of at most 4300 digits; longer ones are
      refused. */
  lemma ParseIntOfIntToString(i: int)
    ensures ParseInt(IntToString(i)) ==
      if |NatToString(if i < 0 then -i else i)| <= MaxIntStrDigits then Some(i) else None
  {
    if i < 0 {
      ParseIntOfNegatedDigits(-i);
    } else {
      ParseIntOfDigits(i);
    }
  }

  /** `str` is injective on integers. */
  lemma IntToStringInjective(i: int, j: int)
    requires IntToString(i) == IntToString(j)
    ensures i == j
  {
    var s := IntToString(i);
    ParseDigitsOfNatToString(if i < 0 then -i else i);
    ParseDigitsOfNatToString(if j < 0 then -j else j);
    assert (i < 0) == (s[0] == '-') == (j < 0);
    if i < 0 {
      assert s[1..] == NatToString(-i) == NatToString(-j);
    }
  }
}
