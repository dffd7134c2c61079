/**
 * The two log tools: `list_log_files` (the `*.log` names in LOG_DIR) and
 * `read_log_file` (the last N lines of one file, kept in a bounded deque).
 * Neither raises: every failure comes back as an error string.
 *
 * The filesystem is a parameter: what `is_dir`/`glob` report for LOG_DIR, and what
 * `exists`/`open` report for the requested file. The file's text is given after
 * decoding; the model translates newlines as text-mode reading does and splits the
 * text into the lines that iterating over the file yields.
 */
module LogReader {
  import opened Text
  import opened Environ

  const DefaultLogDirectory := "./logs"
  const DefaultLastNLines := 20

  /** LOG_DIR: the LOG_DIRECTORY variable, "./logs" when it is unset. */
  function LogDir(env: Env): string {
    GetEnv(env, "LOG_DIRECTORY", DefaultLogDirectory)
  }

  // ---------------------------------------------------------------------------
  // list_log_files
  // ---------------------------------------------------------------------------

  /** What listing LOG_DIR finds: not a directory (or missing), a directory with its
      entry names in the order the filesystem yields them, or an exception. */
  datatype DirProbe = NotADirectory | Directory(entries: seq<string>) | ListingFailed(cause: string)

  /** The glob `*.log` on one name: `*` matches any characters, dot files included. */
  predicate MatchesLogGlob(name: string) {
    EndsWith(name, ".log")
  }

  /** The list comprehension over the glob: the matching names, in directory order. */
  function FilterLogNames(entries: seq<string>): (names: seq<string>)
    ensures forall i :: 0 <= i < |names| ==> MatchesLogGlob(names[i])
    ensures forall n :: multiset(names)[n] == if MatchesLogGlob(n) then multiset(entries)[n] else 0
  {
    if entries == [] then
      []
    else
      var rest := FilterLogNames(entries[1..]);
      assert entries == [entries[0]] + entries[1..];
      if MatchesLogGlob(entries[0]) then [entries[0]] + rest else rest
  }

  function NotADirectoryMessage(logDir: string): string {
    "Error: " + logDir + " is not a valid directory."
  }

  /** `list_log_files`, with LOG_DIR read from `env`. */
  function ListLogFiles(env: Env, probe: DirProbe): (r: seq<string>)
    ensures probe.NotADirectory? ==> r == [NotADirectoryMessage(LogDir(env))]
    ensures probe.ListingFailed? ==> |r| == 1 && StartsWith(r[0], "Error listing logs: ")
    ensures probe.Directory? ==> forall i :: 0 <= i < |r| ==> MatchesLogGlob(r[i])
    ensures probe.Directory? ==>
      forall n :: multiset(r)[n] == if MatchesLogGlob(n) then multiset(probe.entries)[n] else 0
  {
    match probe
    case NotADirectory => [NotADirectoryMessage(LogDir(env))]
    case Directory(entries) => FilterLogNames(entries)
    case ListingFailed(cause) => ["Error listing logs: " + cause]
  }

  /** A directory with no `*.log` entry gives the empty list, not an error. */
  lemma NoMatchGivesEmptyList(env: Env, entries: seq<string>)
    requires forall i :: 0 <= i < |entries| ==> !MatchesLogGlob(entries[i])
    ensures ListLogFiles(env, Directory(entries)) == []
  {
  }

  // ---------------------------------------------------------------------------
  // read_log_file
  // ---------------------------------------------------------------------------

  /** What happens to `LOG_DIR / filename`: it does not exist, `open` raises, it opens
      but iterating over its lines raises, or it reads as the given (decoded) text. */
  datatype FileProbe =
    | NotFound
    | OpenFailed(cause: string)
    | ReadFailed(cause: string)
    | Readable(text: string)

  /** How much of `raw` one translation step reads: "\r\n" as a pair, anything else
      one character at a time. */
  function BreakLen(raw: string): (k: nat)
    requires raw != []
    ensures 1 <= k <= |raw|
    ensures k == 2 <==> |raw| > 1 && raw[0] == '\r' && raw[1] == '\n'
  {
    if |raw| > 1 && raw[0] == '\r' && raw[1] == '\n' then 2 else 1
  }

  /** What that step reads as: "\n" for a break, the character itself otherwise. */
  function FirstUnit(raw: string): string
    requires raw != []
  {
    if raw[0] == '\r' then "\n" else [raw[0]]
  }

  /** Text-mode reading turns "\r\n" and a lone "\r" into "\n". */
  function TranslateNewlines(raw: string): (t: string)
    ensures |t| <= |raw|
    ensures forall i :: 0 <= i < |t| ==> t[i] != '\r'
    ensures (forall i :: 0 <= i < |raw| ==> raw[i] != '\r') ==> t == raw
    decreases |raw|
  {
    if raw == [] then [] else FirstUnit(raw) + TranslateNewlines(raw[BreakLen(raw)..])
  }

  /** The single translations: "\r\n" and a lone "\r" each read as one "\n", and any
      other character reads as itself. */
  lemma TranslateNewlinesUnits(c: char)
    ensures TranslateNewlines("\r\n") == "\n"
    ensures TranslateNewlines("\r") == "\n"
    ensures c != '\r' ==> TranslateNewlines([c]) == [c]
  {
    assert "\r\n"[2..] == [];
  }

  /** Translation works piece by piece: text split anywhere except between the two
      characters of a "\r\n" translates as its two parts do. With the single
      translations above this fixes where every "\n" of the text read comes from. */
  lemma {:induction false} TranslateNewlinesAppend(a: string, b: string)
    requires a == [] || b == [] || a[|a| - 1] != '\r' || b[0] != '\n'
    ensures TranslateNewlines(a + b) == TranslateNewlines(a) + TranslateNewlines(b)
    decreases |a|
  {
    if a == [] {
      assert a + b == b;
    } else {
      var k, u := BreakLen(a), FirstUnit(a);
      var rest, tail := TranslateNewlines(a[k..]), TranslateNewlines(b);
      FirstStepOfAppend(a, b);
      TranslateNewlinesAppend(a[k..], b);
      TranslateNewlinesUnfold(a + b);
      TranslateNewlinesUnfold(a);
      AppendAssoc(u, rest, tail);
    }
  }

  /** One step of the translation, as a fact to call on. */
  lemma TranslateNewlinesUnfold(x: string)
    requires x != []
    ensures TranslateNewlines(x) == FirstUnit(x) + TranslateNewlines(x[BreakLen(x)..])
  {
  }

  /** Under the same condition, the first step on `a + b` is the first step on `a`. */
  lemma FirstStepOfAppend(a: string, b: string)
    requires a != []
    requires b == [] || a[|a| - 1] != '\r' || b[0] != '\n'
    ensures BreakLen(a + b) == BreakLen(a)
    ensures FirstUnit(a + b) == FirstUnit(a)
    ensures (a + b)[BreakLen(a)..] == a[BreakLen(a)..] + b
  {
    assert (a + b)[0] == a[0] && (|a| > 1 ==> (a + b)[1] == a[1]);
  }

  /** How often `c` occurs in `s`. */
  function Count(c: char, s: string): nat {
    if s == [] then 0 else (if s[0] == c then 1 else 0) + Count(c, s[1..])
  }

  /** How many "\r\n" pairs `s` holds. */
  function CrLfCount(s: string): nat {
    if |s| < 2 then 0 else (if s[0] == '\r' && s[1] == '\n' then 1 else 0) + CrLfCount(s[1..])
  }

  /** `s` with every "\r" and "\n" removed. */
  function DropBreaks(s: string): string {
    if s == [] then [] else (if s[0] == '\r' || s[0] == '\n' then [] else [s[0]]) + DropBreaks(s[1..])
  }

  /** Universal newlines turn every line break of `raw` into exactly one "\n": each
      "\r\n", each lone "\r" and each "\n" gives one "\n" of the text read, and nothing
      else changes. */
  lemma {:induction false} TranslateNewlinesCounts(raw: string)
    ensures Count('\n', TranslateNewlines(raw)) + CrLfCount(raw) == Count('\n', raw) + Count('\r', raw)
    ensures DropBreaks(TranslateNewlines(raw)) == DropBreaks(raw)
    decreases |raw|
  {
    if raw != [] {
      var t := TranslateNewlines(raw);
      if raw[0] == '\r' && |raw| > 1 && raw[1] == '\n' {
        var r2 := raw[2..];
        TranslateNewlinesCounts(r2);
        assert raw[1..][1..] == r2;
        assert t == "\n" + TranslateNewlines(r2);
        assert t[1..] == TranslateNewlines(r2);
      } else if raw[0] == '\r' {
        TranslateNewlinesCounts(raw[1..]);
        assert t[1..] == TranslateNewlines(raw[1..]);
      } else {
        TranslateNewlinesCounts(raw[1..]);
        assert t[1..] == TranslateNewlines(raw[1..]);
      }
    }
  }

  function NewlineIndex(s: string): (i: nat)
    ensures i <= |s|
    ensures forall j :: 0 <= j < i ==> s[j] != '\n'
    ensures i < |s| ==> s[i] == '\n'
  {
    if s == [] || s[0] == '\n' then 0 else 1 + NewlineIndex(s[1..])
  }

  /** The lines iterating over the file yields: each keeps its "\n", only the last may
      lack one, and none is empty. */
  function FileLines(text: string): (lines: seq<string>)
    ensures forall k :: 0 <= k < |lines| ==> |lines[k]| > 0
    ensures forall k :: 0 <= k < |lines| - 1 ==> lines[k][|lines[k]| - 1] == '\n'
    ensures forall k, j :: 0 <= k < |lines| && 0 <= j < |lines[k]| - 1 ==> lines[k][j] != '\n'
    decreases |text|
  {
    if text == [] then
      []
    else
      var i := NewlineIndex(text);
      if i == |text| then [text] else [text[..i + 1]] + FileLines(text[i + 1..])
  }

  /** Joining the lines gives the text back. */
  lemma {:induction false} FileLinesRoundTrip(text: string)
    ensures Concat(FileLines(text)) == text
    decreases |text|
  {
    if text != [] {
      var i := NewlineIndex(text);
      if i == |text| {
        assert Concat([text]) == text + Concat([]);
      } else {
        var rest := FileLines(text[i + 1..]);
        FileLinesRoundTrip(text[i + 1..]);
        assert ([text[..i + 1]] + rest)[1..] == rest;
        assert text == text[..i + 1] + text[i + 1..];
      }
    }
  }

  function Min(a: nat, b: nat): nat {
    if a <= b then a else b
  }

  /** The last `n` elements of `s`, or all of `s` when it is shorter. */
  function Tail<T>(s: seq<T>, n: nat): seq<T> {
    s[|s| - Min(n, |s|)..]
  }

  /** Appending to a tail and keeping the last `n` is the tail of the appended sequence:
      this is what a deque bounded by `maxlen = n` does on every append. */
  lemma TailOfAppend<T>(s: seq<T>, x: T, n: nat)
    ensures Tail(Tail(s, n) + [x], n) == Tail(s + [x], n)
  {
    var t := Tail(s, n);
    if n > |s| {
      assert t == s;
    } else if n > 0 {
      assert (t + [x])[1..] == (s + [x])[|s| + 1 - n..];
    }
  }

  /** `collections.deque(maxlen=...)` of lines: appending to a full deque evicts the
      oldest line; a deque with maxlen 0 stays empty. */
  class LineDeque {
    const maxlen: nat
    var items: seq<string>

    ghost predicate Valid()
      reads this
    {
      |items| <= maxlen
    }

    constructor (maxlen: nat)
      ensures Valid() && this.maxlen == maxlen && items == []
    {
      this.maxlen := maxlen;
      items := [];
    }

    method Append(line: string)
      requires Valid()
      modifies this
      ensures Valid()
      ensures items == Tail(old(items) + [line], maxlen)
    {
      if maxlen == 0 {
      } else if |items| < maxlen {
        items := items + [line];
      } else {
        items := items[1..] + [line];
      }
    }
  }

  function NotFoundMessage(filename: string, logDir: string): string {
    "Error: File " + filename + " not found in " + logDir
  }

  /** The message of the ValueError a deque raises for a negative maxlen. */
  const NegativeMaxlenCause := "maxlen must be non-negative"

  /** The range of a C `ssize_t` on a 64-bit platform, which a deque's maxlen must fit. */
  const SsizeMin := -0x8000_0000_0000_0000
  const SsizeMax := 0x7FFF_FFFF_FFFF_FFFF

  /** The message of the OverflowError for a maxlen outside that range. */
  const MaxlenOverflowCause := "Python int too large to convert to C ssize_t"

  /** The last `min(lastNLines, L)` of the file's L lines, joined with their line ends. */
  function TailText(text: string, n: nat): string {
    Concat(Tail(FileLines(TranslateNewlines(text)), n))
  }

  /** `read_log_file`, with LOG_DIR read from `env`. Once the file is open, the deque
      checks its maxlen (first that it fits a `ssize_t`, then its sign) before it
      reads a single line, so a maxlen error wins over a read error. */
  method ReadLogFile(env: Env, filename: string, probe: FileProbe, lastNLines: int := DefaultLastNLines)
    returns (r: string)
    ensures probe.NotFound? ==> r == NotFoundMessage(filename, LogDir(env))
    ensures probe.OpenFailed? ==> r == "Error reading log: " + probe.cause
    ensures (probe.ReadFailed? || probe.Readable?) && !(SsizeMin <= lastNLines <= SsizeMax) ==>
      r == "Error reading log: " + MaxlenOverflowCause
    ensures (probe.ReadFailed? || probe.Readable?) && SsizeMin <= lastNLines < 0 ==>
      r == "Error reading log: " + NegativeMaxlenCause
    ensures probe.ReadFailed? && 0 <= lastNLines <= SsizeMax ==> r == "Error reading log: " + probe.cause
    ensures probe.Readable? && 0 <= lastNLines <= SsizeMax ==> r == TailText(probe.text, lastNLines)
  {
    if probe.NotFound? {
      return NotFoundMessage(filename, LogDir(env));
    }
    if probe.OpenFailed? {
      return "Error reading log: " + probe.cause;
    }
    if lastNLines < SsizeMin || lastNLines > SsizeMax {
      return "Error reading log: " + MaxlenOverflowCause;
    }
    if lastNLines < 0 {
      return "Error reading log: " + NegativeMaxlenCause;
    }
    if probe.ReadFailed? {
      return "Error reading log: " + probe.cause;
    }
    var lines := FileLines(TranslateNewlines(probe.text));
    var dq := new LineDeque(lastNLines);
    var i := 0;
    while i < |lines|
      invariant 0 <= i <= |lines|
      invariant dq.Valid() && dq.maxlen == lastNLines
      invariant dq.items == Tail(lines[..i], lastNLines)
    {
      TailOfAppend(lines[..i], lines[i], lastNLines);
      assert lines[..i + 1] == lines[..i] + [lines[i]];
      dq.Append(lines[i]);
      i := i + 1;
    }
    assert lines[..i] == lines;
    r := Concat(dq.items);
  }

  // ---------------------------------------------------------------------------
  // Properties of the tail that read_log_file returns
  // ---------------------------------------------------------------------------

  /** The tail is the file's text with a prefix of whole lines cut off. */
  lemma TailTextIsSuffix(text: string, n: nat)
    ensures var lines := FileLines(TranslateNewlines(text));
      TranslateNewlines(text)
        == Concat(lines[..|lines| - Min(n, |lines|)]) + TailText(text, n)
  {
    var lines := FileLines(TranslateNewlines(text));
    var k := |lines| - Min(n, |lines|);
    assert lines == lines[..k] + lines[k..];
    ConcatAppend(lines[..k], lines[k..]);
    FileLinesRoundTrip(TranslateNewlines(text));
  }

  /** Asking for at least as many lines as the file has returns all of it. */
  lemma TailTextWhole(text: string, n: nat)
    requires n >= |FileLines(TranslateNewlines(text))|
    ensures TailText(text, n) == TranslateNewlines(text)
  {
    var lines := FileLines(TranslateNewlines(text));
    assert Tail(lines, n) == lines;
    FileLinesRoundTrip(TranslateNewlines(text));
  }

  /** Asking for no lines returns "". */
  lemma TailTextZero(text: string)
    ensures TailText(text, 0) == ""
  {
  }

  /** The tail holds exactly `min(n, L)` of the file's lines. */
  lemma TailLength<T>(s: seq<T>, n: nat)
    ensures |Tail(s, n)| == Min(n, |s|)
    ensures Tail(s, n) == s[|s| - Min(n, |s|)..]
  {
  }
}
