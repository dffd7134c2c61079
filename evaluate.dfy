/**
 * The evaluation harness's local logic: the keyword and structure evaluators, the
 * min-score gate, the parsing of the judge model's "SCORE:"/"REASON:" answer, the
 * extraction of the agent's final answer from the streamed node updates, the
 * experiment names and the choice of which dataset examples to run.
 *
 * The judge model's reply, the streamed updates and the environment are parameters.
 * Scores are exact rationals.
 */
module Evaluate {
  import opened Wrappers
  import opened Text
  import opened Environ
  import opened AgentGraph

  /** `run.outputs`: the run's output dictionary, `None` when the run recorded none. */
  datatype RunRecord = RunRecord(outputs: Option<map<string, string>>)

  /** An example's query and its `outputs` entries, each `None` when absent. */
  datatype ExampleRecord = ExampleRecord(
    query: string,
    expectedContains: Option<seq<string>>,
    expectedStructure: Option<seq<string>>,
    minScore: Option<real>)

  datatype EvalResult = EvalResult(key: string, score: real, comment: Option<string>)

  // ---------------------------------------------------------------------------
  // contains_evaluator and structure_evaluator
  // ---------------------------------------------------------------------------

  /** `run.outputs.get("output", "")`. */
  function OutputText(run: RunRecord): string
    requires run.outputs.Some?
  {
    var m := run.outputs.value;
    if "output" in m then m["output"] else ""
  }

  /** The lowercased agent output. */
  function Prediction(run: RunRecord): string
    requires run.outputs.Some?
  {
    Lower(OutputText(run))
  }

  /** The AttributeError `run.outputs.get` raises when `run.outputs` is None. */
  const MissingOutputsError := "'NoneType' object has no attribute 'get'"

  /** `k.lower() in prediction`. */
  predicate Found(prediction: string, k: string) {
    Contains(prediction, Lower(k))
  }

  /** How many of the expected strings occur in the prediction. */
  function CountFound(expected: seq<string>, prediction: string): (n: nat)
    ensures n <= |expected|
    ensures n == |expected| <==> forall i :: 0 <= i < |expected| ==> Found(prediction, expected[i])
    ensures n == 0 <==> forall i :: 0 <= i < |expected| ==> !Found(prediction, expected[i])
  {
    if expected == [] then
      0
    else
      var rest := CountFound(expected[1..], prediction);
      assert forall i :: 1 <= i < |expected| ==> expected[i] == expected[1..][i - 1];
      (if Found(prediction, expected[0]) then 1 else 0) + rest
  }

  /** Counting over two lists is counting over each: with `CountFoundOne`, this fixes
      the count as the number of expected strings found. */
  lemma {:induction false} CountFoundAppend(a: seq<string>, b: seq<string>, prediction: string)
    ensures CountFound(a + b, prediction) == CountFound(a, prediction) + CountFound(b, prediction)
    decreases |a|
  {
    if a == [] {
      assert a + b == b;
    } else {
      assert (a + b)[0] == a[0];
      assert (a + b)[1..] == a[1..] + b;
      CountFoundAppend(a[1..], b, prediction);
    }
  }

  /** One expected string counts 1 when found and 0 otherwise. */
  lemma CountFoundOne(k: string, prediction: string)
    ensures CountFound([k], prediction) == if Found(prediction, k) then 1 else 0
  {
    assert [k][1..] == [];
  }

  /** The facts about `found / total` the evaluators rely on. */
  lemma RatioBounds(found: nat, total: nat)
    requires 0 < total && found <= total
    ensures 0.0 <= found as real / total as real <= 1.0
    ensures (found as real / total as real) * (total as real) == found as real
    ensures found as real / total as real == 1.0 <==> found == total
    ensures found as real / total as real == 0.0 <==> found == 0
  {
    var q := found as real / total as real;
    assert q * (total as real) == found as real;
  }

  /** The ratio of the expected strings found; 1.0 and no comment when nothing is expected. */
  function ExpectationCheck(key: string, noun: string, prediction: string, expected: seq<string>)
    : (r: EvalResult)
    ensures r.key == key
    ensures 0.0 <= r.score <= 1.0
    ensures expected == [] ==> r.score == 1.0 && r.comment == None
    ensures expected != [] ==> r.score == CountFound(expected, prediction) as real / |expected| as real
    ensures r.score == 1.0 <==> forall i :: 0 <= i < |expected| ==> Found(prediction, expected[i])
    ensures r.score == 0.0 <==> expected != [] && forall i :: 0 <= i < |expected| ==> !Found(prediction, expected[i])
    ensures expected != [] ==> r.comment == Some(
      "Found " + NatToString(CountFound(expected, prediction)) + "/" + NatToString(|expected|)
      + " expected " + noun)
  {
    if expected == [] then
      EvalResult(key, 1.0, None)
    else
      var found := CountFound(expected, prediction);
      RatioBounds(found, |expected|);
      EvalResult(key, found as real / |expected| as real,
        Some("Found " + NatToString(found) + "/" + NatToString(|expected|) + " expected " + noun))
  }

  /** `contains_evaluator`: raises when the run has no outputs, otherwise the ratio of
      the expected keywords found. */
  function ContainsEvaluator(run: RunRecord, example: ExampleRecord): (r: Result<EvalResult, string>)
    ensures r.Failure? <==> run.outputs.None?
    ensures r.Failure? ==> r.error == MissingOutputsError
    ensures r.Success? ==> r.value.key == "contains_check" && 0.0 <= r.value.score <= 1.0
    ensures r.Success? ==> var expected := example.expectedContains.GetOr([]);
      r.value.score == 1.0 <==> forall i :: 0 <= i < |expected| ==> Found(Prediction(run), expected[i])
  {
    if run.outputs.None? then
      Failure(MissingOutputsError)
    else
      Success(ExpectationCheck("contains_check", "keywords", Prediction(run), example.expectedContains.GetOr([])))
  }

  /** `structure_evaluator`: raises when the run has no outputs, otherwise the ratio of
      the expected structure elements found. */
  function StructureEvaluator(run: RunRecord, example: ExampleRecord): (r: Result<EvalResult, string>)
    ensures r.Failure? <==> run.outputs.None?
    ensures r.Failure? ==> r.error == MissingOutputsError
    ensures r.Success? ==> r.value.key == "structure_check" && 0.0 <= r.value.score <= 1.0
    ensures r.Success? ==> var expected := example.expectedStructure.GetOr([]);
      r.value.score == 1.0 <==> forall i :: 0 <= i < |expected| ==> Found(Prediction(run), expected[i])
  {
    if run.outputs.None? then
      Failure(MissingOutputsError)
    else
      Success(ExpectationCheck("structure_check", "structure elements", Prediction(run),
        example.expectedStructure.GetOr([])))
  }

  /** The expected strings of `a` and `b` are the same up to case. */
  predicate SameUpToCase(a: seq<string>, b: seq<string>) {
    |a| == |b| && forall i :: 0 <= i < |a| ==> Lower(a[i]) == Lower(b[i])
  }

  /** The count of expected strings found ignores the case of the expected strings. */
  lemma {:induction false} CountFoundIgnoresCase(a: seq<string>, b: seq<string>, prediction: string)
    requires SameUpToCase(a, b)
    ensures CountFound(a, prediction) == CountFound(b, prediction)
  {
    if a != [] {
      assert Found(prediction, a[0]) == Found(prediction, b[0]);
      assert forall i :: 0 <= i < |a| - 1 ==> a[1..][i] == a[i + 1] && b[1..][i] == b[i + 1];
      CountFoundIgnoresCase(a[1..], b[1..], prediction);
    }
  }

  /** The keyword and structure checks are case-insensitive: outputs equal up to case
      and expected strings equal up to case give the same results. */
  lemma EvaluatorsIgnoreCase(run1: RunRecord, run2: RunRecord, ex1: ExampleRecord, ex2: ExampleRecord)
    requires run1.outputs.Some? && run2.outputs.Some?
    requires Lower(OutputText(run1)) == Lower(OutputText(run2))
    requires SameUpToCase(ex1.expectedContains.GetOr([]), ex2.expectedContains.GetOr([]))
    requires SameUpToCase(ex1.expectedStructure.GetOr([]), ex2.expectedStructure.GetOr([]))
    ensures ContainsEvaluator(run1, ex1) == ContainsEvaluator(run2, ex2)
    ensures StructureEvaluator(run1, ex1) == StructureEvaluator(run2, ex2)
  {
    CountFoundIgnoresCase(ex1.expectedContains.GetOr([]), ex2.expectedContains.GetOr([]), Prediction(run1));
    CountFoundIgnoresCase(ex1.expectedStructure.GetOr([]), ex2.expectedStructure.GetOr([]), Prediction(run1));
  }

  /** Lowercasing the agent's output first changes no prediction. */
  lemma PredictionOfLowered(run: RunRecord, lowered: RunRecord)
    requires run.outputs.Some? && lowered.outputs.Some?
    requires OutputText(lowered) == Lower(OutputText(run))
    ensures Prediction(lowered) == Prediction(run)
  {
    LowerIdempotent(OutputText(run));
  }

  // ---------------------------------------------------------------------------
  // min_score_evaluator
  // ---------------------------------------------------------------------------

  const DefaultMinScore: real := 0.7

  /** 1.0 when the mean of the contains and structure scores reaches the example's
      minimum (0.7 by default), 0.0 otherwise. */
  function MinScoreEvaluator(run: RunRecord, example: ExampleRecord): (r: Result<EvalResult, string>)
    ensures r.Failure? <==> run.outputs.None?
    ensures r.Failure? ==> r.error == MissingOutputsError
    ensures r.Success? ==> r.value.key == "min_score_check" && (r.value.score == 1.0 || r.value.score == 0.0)
    ensures r.Success? ==> (r.value.score == 1.0 <==>
      (ContainsEvaluator(run, example).value.score + StructureEvaluator(run, example).value.score) / 2.0
        >= example.minScore.GetOr(DefaultMinScore))
  {
    var contains := ContainsEvaluator(run, example);
    if contains.Failure? then
      Failure(contains.error)
    else
      var minScore := example.minScore.GetOr(DefaultMinScore);
      var avg := (contains.value.score + StructureEvaluator(run, example).value.score) / 2.0;
      Success(EvalResult("min_score_check", if avg >= minScore then 1.0 else 0.0, None))
  }

  /** An output holding every expected keyword and structure element passes any
      minimum up to 1.0, the default included. */
  lemma MinScorePassesWhenAllFound(run: RunRecord, example: ExampleRecord)
    requires run.outputs.Some?
    requires example.minScore.GetOr(DefaultMinScore) <= 1.0
    requires var e := example.expectedContains.GetOr([]);
      forall i :: 0 <= i < |e| ==> Found(Prediction(run), e[i])
    requires var e := example.expectedStructure.GetOr([]);
      forall i :: 0 <= i < |e| ==> Found(Prediction(run), e[i])
    ensures MinScoreEvaluator(run, example) == Success(EvalResult("min_score_check", 1.0, None))
  {
  }

  /** An output holding none of the expected keywords and structure elements fails any
      positive minimum. */
  lemma MinScoreFailsWhenNothingFound(run: RunRecord, example: ExampleRecord)
    requires run.outputs.Some?
    requires example.minScore.GetOr(DefaultMinScore) > 0.0
    requires var e := example.expectedContains.GetOr([]);
      e != [] && forall i :: 0 <= i < |e| ==> !Found(Prediction(run), e[i])
    requires var e := example.expectedStructure.GetOr([]);
      e != [] && forall i :: 0 <= i < |e| ==> !Found(Prediction(run), e[i])
    ensures MinScoreEvaluator(run, example) == Success(EvalResult("min_score_check", 0.0, None))
  {
  }

  // ---------------------------------------------------------------------------
  // llm_judge_evaluator: parsing the judge's answer
  // ---------------------------------------------------------------------------

  const ScorePrefix := "SCORE:"
  const ReasonPrefix := "REASON:"
  const UnparsedReason := "Could not parse judge response"
  const DefaultJudgeProvider := "groq"
  const DefaultJudgeModel := "llama-3.3-70b-versatile"

  /** Index of the first ':' in `s`, or `|s|` when there is none. */
  function ColonIndex(s: string): (i: nat)
    ensures i <= |s|
    ensures i < |s| ==> s[i] == ':'
  {
    if s == [] || s[0] == ':' then 0 else 1 + ColonIndex(s[1..])
  }

  /** A colon with none before it is the first one. */
  lemma {:induction false} ColonIndexIs(s: string, m: nat)
    requires m < |s| && s[m] == ':'
    requires forall j :: 0 <= j < m ==> s[j] != ':'
    ensures ColonIndex(s) == m
  {
    if m > 0 {
      assert forall j :: 0 <= j < m - 1 ==> s[1..][j] == s[j + 1];
      ColonIndexIs(s[1..], m - 1);
    }
  }

  /** `s.split(":", 1)[1]`: what follows the first colon ("" when there is none). */
  function AfterFirstColon(s: string): string {
    var i := ColonIndex(s);
    if i < |s| then s[i + 1..] else []
  }

  /** On a line starting with "SCORE:" or "REASON:", the split happens right after
      that prefix. */
  lemma AfterPrefixColon(s: string, prefix: string)
    requires prefix == ScorePrefix || prefix == ReasonPrefix
    requires StartsWith(s, prefix)
    ensures AfterFirstColon(s) == s[|prefix|..]
  {
    assert s[|prefix| - 1] == prefix[|prefix| - 1] == ':';
    forall j | 0 <= j < |prefix| - 1
      ensures s[j] != ':'
    {
      assert s[j] == prefix[j];
    }
    ColonIndexIs(s, |prefix| - 1);
  }

  /** The lines of the stripped reply. */
  function ReplyLines(reply: string): seq<string> {
    SplitLines(Strip(reply))
  }

  /** `line.split(":", 1)[1].strip()`: the literal handed to `int()` on a "SCORE:"
      line, the reason on a "REASON:" line. */
  function FieldText(line: string): string {
    Strip(AfterFirstColon(line))
  }

  /** No line starts with both prefixes. */
  lemma PrefixesExclusive(line: string)
    requires StartsWith(line, ScorePrefix)
    ensures !StartsWith(line, ReasonPrefix)
  {
    assert line[0] == ScorePrefix[0];
  }

  /** What one line means to the parsing loop. */
  datatype LineKind =
    | ScoreLine(parsed: Option<int>, literal: string)
    | ReasonLine(text: string)
    | OtherLine

  /** The `if`/`elif` of the loop: "SCORE:" is tested first. A score line carries the
      stripped text after "SCORE:" and parses exactly when that text is an integer
      literal of at most 4300 digits; a reason line carries the stripped text after "REASON:". */
  function Classify(line: string): (k: LineKind)
    ensures k.ScoreLine? <==> StartsWith(line, ScorePrefix)
    ensures k.ReasonLine? <==> StartsWith(line, ReasonPrefix)
    ensures k.ScoreLine? ==> k.literal == Strip(line[|ScorePrefix|..])
    ensures k.ScoreLine? ==> (k.parsed.Some? <==> IsIntLiteral(k.literal) && WithinDigitLimit(k.literal))
    ensures k.ReasonLine? ==> k.text == Strip(line[|ReasonPrefix|..])
  {
    if StartsWith(line, ScorePrefix) then
      AfterPrefixColon(line, ScorePrefix);
      PrefixesExclusive(line);
      ParseIntSpec(FieldText(line));
      ScoreLine(ParseInt(FieldText(line)), FieldText(line))
    else if StartsWith(line, ReasonPrefix) then
      AfterPrefixColon(line, ReasonPrefix);
      ReasonLine(FieldText(line))
    else
      OtherLine
  }

  function Kinds(lines: seq<string>): seq<LineKind> {
    seq(|lines|, i requires 0 <= i < |lines| => Classify(lines[i]))
  }

  /** A "SCORE:" line whose remainder `int()` rejects. */
  predicate Raises(k: LineKind) {
    k.ScoreLine? && k.parsed.None?
  }

  /** What the parsing loop ends with: the raw score and reason, or the `int()` literal
      it raised on. */
  datatype Verdict = Parsed(scoreRaw: int, reason: string) | Unparsable(literal: string)

  /** One turn of the loop: a bad "SCORE:" line raises, a good one sets the raw score,
      a "REASON:" line sets the reason. Once raised, nothing changes; a line of another
      kind changes nothing; a score line leaves the reason and a reason line the score. */
  function Turn(v: Verdict, k: LineKind): (r: Verdict)
    ensures r.Unparsable? <==> v.Unparsable? || Raises(k)
    ensures v.Unparsable? ==> r == v
    ensures v.Parsed? && Raises(k) ==> r == Unparsable(k.literal)
    ensures k.OtherLine? ==> r == v
    ensures r.Parsed? && k.ScoreLine? ==> r.scoreRaw == k.parsed.value && r.reason == v.reason
    ensures r.Parsed? && k.ReasonLine? ==> r.scoreRaw == v.scoreRaw && r.reason == k.text
  {
    if v.Unparsable? then
      v
    else
      match k
      case ScoreLine(parsed, literal) =>
        if parsed.None? then Unparsable(literal) else Parsed(parsed.value, v.reason)
      case ReasonLine(text) => Parsed(v.scoreRaw, text)
      case OtherLine => v
  }

  /** The loop over the lines read so far, from score 0 and the fallback reason. */
  function Scan(ks: seq<LineKind>): Verdict {
    if ks == [] then Parsed(0, UnparsedReason) else Turn(Scan(ks[..|ks| - 1]), ks[|ks| - 1])
  }

  /** The score of the last "SCORE:" line, 0 when there is none. */
  function LastScore(ks: seq<LineKind>): int {
    if ks == [] then
      0
    else if ks[|ks| - 1].ScoreLine? then
      ks[|ks| - 1].parsed.GetOr(0)
    else
      LastScore(ks[..|ks| - 1])
  }

  /** The text of the last "REASON:" line, the fallback reason when there is none. */
  function LastReason(ks: seq<LineKind>): string {
    if ks == [] then
      UnparsedReason
    else if ks[|ks| - 1].ReasonLine? then
      ks[|ks| - 1].text
    else
      LastReason(ks[..|ks| - 1])
  }

  /** Reading one more line is one more turn. */
  lemma ScanSnoc(ks: seq<LineKind>, i: nat)
    requires i < |ks|
    ensures Scan(ks[..i + 1]) == Turn(Scan(ks[..i]), ks[i])
  {
    assert ks[..i + 1][..i] == ks[..i];
  }

  /** Once the loop has raised, later lines change nothing. */
  lemma {:induction false} StaysUnparsable(ks: seq<LineKind>, i: nat)
    requires i <= |ks| && Scan(ks[..i]).Unparsable?
    ensures Scan(ks) == Scan(ks[..i])
    decreases |ks|
  {
    if i == |ks| {
      assert ks[..i] == ks;
    } else {
      var n := |ks| - 1;
      assert ks[..n][..i] == ks[..i];
      StaysUnparsable(ks[..n], i);
    }
  }

  /** Without a bad "SCORE:" line the loop ends with the score of the last "SCORE:"
      line and the reason of the last "REASON:" line. */
  lemma {:induction false} NoRaiseParses(ks: seq<LineKind>)
    requires forall i :: 0 <= i < |ks| ==> !Raises(ks[i])
    ensures Scan(ks) == Parsed(LastScore(ks), LastReason(ks))
    decreases |ks|
  {
    if ks != [] {
      var n := |ks| - 1;
      assert forall i :: 0 <= i < n ==> ks[..n][i] == ks[i];
      NoRaiseParses(ks[..n]);
    }
  }

  /** The loop raises exactly when some "SCORE:" line is not followed by an integer. */
  lemma {:induction false} UnparsableIffRaise(ks: seq<LineKind>)
    ensures Scan(ks).Unparsable? <==> exists i :: 0 <= i < |ks| && Raises(ks[i])
    decreases |ks|
  {
    if ks != [] {
      var n := |ks| - 1;
      var init := ks[..n];
      UnparsableIffRaise(init);
      if Scan(ks).Unparsable? {
        if Scan(init).Unparsable? {
          var i :| 0 <= i < |init| && Raises(init[i]);
          assert ks[i] == init[i];
        } else {
          assert Raises(ks[n]);
        }
      } else {
        forall i | 0 <= i < |ks|
          ensures !Raises(ks[i])
        {
          if i < n {
            assert ks[i] == init[i];
          }
        }
      }
    }
  }

  /** It raises on the first bad "SCORE:" line, with that line's literal. */
  lemma FirstRaiseStops(ks: seq<LineKind>, k: nat)
    requires k < |ks| && Raises(ks[k])
    requires forall j :: 0 <= j < k ==> !Raises(ks[j])
    ensures Scan(ks) == Unparsable(ks[k].literal)
  {
    var before := ks[..k];
    UnparsableIffRaise(before);
    forall j | 0 <= j < |before|
      ensures !Raises(before[j])
    {
      assert before[j] == ks[j];
    }
    ScanSnoc(ks, k);
    StaysUnparsable(ks, k + 1);
  }

  /** The last "SCORE:" line sets the raw score, whatever came before it. */
  lemma {:induction false} LastScoreLineWins(ks: seq<LineKind>, k: nat)
    requires k < |ks| && ks[k].ScoreLine?
    requires forall j :: k < j < |ks| ==> !ks[j].ScoreLine?
    ensures LastScore(ks) == ks[k].parsed.GetOr(0)
    decreases |ks|
  {
    if k < |ks| - 1 {
      var n := |ks| - 1;
      assert forall j :: k < j < n ==> ks[..n][j] == ks[j];
      LastScoreLineWins(ks[..n], k);
    }
  }

  /** A reply with no "SCORE:" line scores 0. */
  lemma {:induction false} NoScoreLineScoresZero(ks: seq<LineKind>)
    requires forall i :: 0 <= i < |ks| ==> !ks[i].ScoreLine?
    ensures LastScore(ks) == 0
    decreases |ks|
  {
    if ks != [] {
      var n := |ks| - 1;
      assert forall i :: 0 <= i < n ==> ks[..n][i] == ks[i];
      NoScoreLineScoresZero(ks[..n]);
    }
  }

  /** A reply with no "REASON:" line gets the fallback reason. */
  lemma {:induction false} NoReasonLineFallsBack(ks: seq<LineKind>)
    requires forall i :: 0 <= i < |ks| ==> !ks[i].ReasonLine?
    ensures LastReason(ks) == UnparsedReason
    decreases |ks|
  {
    if ks != [] {
      var n := |ks| - 1;
      assert forall i :: 0 <= i < n ==> ks[..n][i] == ks[i];
      NoReasonLineFallsBack(ks[..n]);
    }
  }

  /** The loop over the reply's lines, reassigning `score_raw` and `reason`. */
  method ParseJudgeReply(reply: string) returns (v: Verdict)
    ensures v == Scan(Kinds(ReplyLines(reply)))
  {
    var lines := ReplyLines(reply);
    ghost var ks := Kinds(lines);
    var scoreRaw, reason := 0, UnparsedReason;
    var i := 0;
    while i < |lines|
      invariant 0 <= i <= |lines|
      invariant Scan(ks[..i]) == Parsed(scoreRaw, reason)
    {
      var line := lines[i];
      ScanSnoc(ks, i);
      assert ks[i] == Classify(line);
      if StartsWith(line, ScorePrefix) {
        var literal := FieldText(line);
        var parsed := ParseInt(literal);
        if parsed.None? {
          StaysUnparsable(ks, i + 1);
          return Unparsable(literal);
        }
        scoreRaw := parsed.value;
      } else if StartsWith(line, ReasonPrefix) {
        reason := FieldText(line);
      }
      i := i + 1;
    }
    assert ks[..i] == ks;
    return Parsed(scoreRaw, reason);
  }

  /** `round(min(max(score_raw, 0), 10) / 10, 2)`: a tenth of the raw score clamped to
      [0, 10]. */
  function ClampedScore(raw: int): (s: real)
    ensures 0.0 <= s <= 1.0
    ensures raw <= 0 ==> s == 0.0
    ensures raw >= 10 ==> s == 1.0
    ensures 0 <= raw <= 10 ==> s * 10.0 == raw as real
  {
    var clamped := if raw < 0 then 0 else if raw > 10 then 10 else raw;
    clamped as real / 10.0
  }

  /** The "[provider/model] " label, from JUDGE_PROVIDER and JUDGE_MODEL. */
  function JudgeLabel(env: Env): string {
    "[" + GetEnv(env, "JUDGE_PROVIDER", DefaultJudgeProvider) + "/"
    + GetEnv(env, "JUDGE_MODEL", DefaultJudgeModel) + "] "
  }

  const JudgeErrorPrefix := "Judge error: "

  /** The ValueError detail for a well-formed literal of `digits` digits, over the limit. */
  function DigitLimitDetail(digits: nat): string {
    "Exceeds the limit (" + NatToString(MaxIntStrDigits) + " digits) for integer string conversion: value has "
    + NatToString(digits) + " digits; use sys.set_int_max_str_digits() to increase the limit"
  }

  /** The comment for the ValueError `int()` raises on `literal`: the digit-limit message
      for a well-formed literal that is too long, the invalid-literal message otherwise. */
  function JudgeErrorComment(literal: string): (c: string)
    ensures StartsWith(c, JudgeErrorPrefix)
    ensures |c| > |JudgeErrorPrefix|
    ensures c[|JudgeErrorPrefix|] == 'E' <==> IsIntLiteral(literal) && !WithinDigitLimit(literal)
  {
    var detail :=
      if IsIntLiteral(literal) && !WithinDigitLimit(literal) then
        DigitLimitDetail(|DropUnderscores(IntBody(literal))|)
      else
        "invalid literal for int() with base 10: '" + literal + "'";
    assert (JudgeErrorPrefix + detail)[..|JudgeErrorPrefix|] == JudgeErrorPrefix;
    assert (JudgeErrorPrefix + detail)[|JudgeErrorPrefix|] == detail[0];
    JudgeErrorPrefix + detail
  }

  /** `llm_judge_evaluator` given the judge's reply: a score in [0, 1] with the
      reason, or 0.0 with a "Judge error:" comment when a score is not an integer. */
  method LlmJudgeEvaluator(env: Env, reply: string) returns (r: EvalResult)
    ensures r.key == "llm_judge"
    ensures 0.0 <= r.score <= 1.0
    ensures var ks := Kinds(ReplyLines(reply));
      (exists i :: 0 <= i < |ks| && Raises(ks[i])) ==>
        r.score == 0.0 && r.comment.Some? && StartsWith(r.comment.value, JudgeErrorPrefix)
    ensures var ks := Kinds(ReplyLines(reply));
      (forall i :: 0 <= i < |ks| ==> !Raises(ks[i])) ==>
        r.score == ClampedScore(LastScore(ks)) && r.comment == Some(JudgeLabel(env) + LastReason(ks))
  {
    var v := ParseJudgeReply(reply);
    ghost var ks := Kinds(ReplyLines(reply));
    UnparsableIffRaise(ks);
    if forall i :: 0 <= i < |ks| ==> !Raises(ks[i]) {
      NoRaiseParses(ks);
    }
    match v
    case Unparsable(literal) =>
      r := EvalResult("llm_judge", 0.0, Some(JudgeErrorComment(literal)));
    case Parsed(scoreRaw, reason) =>
      r := EvalResult("llm_judge", ClampedScore(scoreRaw), Some(JudgeLabel(env) + reason));
  }

  /** `strip` leaves a printed integer alone, and drops a space before it. */
  lemma StripPrintedInt(raw: int)
    ensures Strip(" " + IntToString(raw)) == IntToString(raw)
  {
    var s := IntToString(raw);
    StripLeadingSpace(s);
    IntToStringEdges(raw);
    SignOrDigitIsNotSpace(s[0]);
    SignOrDigitIsNotSpace(s[|s| - 1]);
    StripTrimmed(s);
  }

  /** After "SCORE: " the field is the printed integer itself. */
  lemma WrittenScoreField(raw: int)
    ensures FieldText(ScorePrefix + " " + IntToString(raw)) == IntToString(raw)
  {
    var s := IntToString(raw);
    var line := ScorePrefix + (" " + s);
    assert line == ScorePrefix + " " + s;
    assert line[..|ScorePrefix|] == ScorePrefix;
    AfterPrefixColon(line, ScorePrefix);
    assert line[|ScorePrefix|..] == " " + s;
    StripPrintedInt(raw);
  }

  /** A judge that writes its score as Python prints an integer has it read back, as
      long as it has at most 4300 digits; a longer one makes `int()` raise. */
  lemma WrittenScoreReadsBack(raw: int)
    ensures Classify(ScorePrefix + " " + IntToString(raw)) == ScoreLine(
      if |NatToString(if raw < 0 then -raw else raw)| <= MaxIntStrDigits then Some(raw) else None,
      IntToString(raw))
  {
    var line := ScorePrefix + " " + IntToString(raw);
    assert line[..|ScorePrefix|] == ScorePrefix;
    WrittenScoreField(raw);
    ParseIntOfIntToString(raw);
  }

  // ---------------------------------------------------------------------------
  // run_agent: the final answer in the stream of updates
  // ---------------------------------------------------------------------------

  const NoResponse := "No response generated"

  /** The content of the last message, or the fallback text when there is none. */
  function ResponseText(messages: seq<Message>): string {
    if messages == [] then NoResponse else messages[|messages| - 1].content
  }

  /** One more update of a chunk adds its messages at the end. */
  lemma ChunkMessagesSnoc(chunk: Chunk, j: nat)
    requires j < |chunk|
    ensures ChunkMessages(chunk[..j + 1]) == ChunkMessages(chunk[..j]) + UpdateMessages(chunk[j])
  {
    assert chunk[..j + 1][..j] == chunk[..j];
  }

  /** The nested loops that extend `final_messages`, then the pick of its last entry. */
  method RunAgent(stream: seq<Chunk>) returns (output: string)
    ensures output == ResponseText(AllMessages(stream))
  {
    var finalMessages: seq<Message> := [];
    var i := 0;
    while i < |stream|
      invariant 0 <= i <= |stream|
      invariant finalMessages == AllMessages(stream[..i])
    {
      var chunk := stream[i];
      var j := 0;
      while j < |chunk|
        invariant 0 <= j <= |chunk|
        invariant finalMessages == AllMessages(stream[..i]) + ChunkMessages(chunk[..j])
      {
        var u := chunk[j];
        ChunkMessagesSnoc(chunk, j);
        AppendAssoc(AllMessages(stream[..i]), ChunkMessages(chunk[..j]), UpdateMessages(u));
        if u.messages.Some? && |u.messages.value| > 0 {
          finalMessages := finalMessages + u.messages.value;
        } else {
          AppendEmpty(finalMessages);
        }
        j := j + 1;
      }
      assert chunk[..j] == chunk;
      assert stream[..i + 1][..i] == stream[..i];
      i := i + 1;
    }
    assert stream[..i] == stream;
    if finalMessages != [] {
      output := finalMessages[|finalMessages| - 1].content;
    } else {
      output := NoResponse;
    }
  }

  /** `run_agent` on a run that reached END answers with the newest message of the
      history, and that message asks for no further tool calls. */
  lemma FinishedRunAnswer(query: string, fuel: nat, llm: Llm, tools: ToolRunner)
    requires Run(Init(query), fuel, llm, tools).final.at == End
    ensures var h := Run(Init(query), fuel, llm, tools).final.messages;
      && |h| > 1
      && ResponseText(AllMessages(Run(Init(query), fuel, llm, tools).stream)) == h[|h| - 1].content
      && !RequestsTools(h[|h| - 1])
  {
    FinishedRunHasNoToolCalls(query, fuel, llm, tools);
  }

  // ---------------------------------------------------------------------------
  // Experiment names and example selection
  // ---------------------------------------------------------------------------

  const ExampleInfix := "-example-"

  /** "{provider}-{model}" from the raw LLM_PROVIDER ("openai" when unset) and
      MODEL_NAME ("default" when unset). */
  function ModelTag(env: Env): string {
    GetEnv(env, "LLM_PROVIDER", "openai") + "-" + GetEnv(env, "MODEL_NAME", "default")
  }

  /** "{project}-{provider}-{model}-example-{N}": one experiment per model and example. */
  function ExperimentPrefix(env: Env, projectName: string, exampleIndex: int): (r: string)
    ensures StartsWith(r, projectName + "-")
    ensures EndsWith(r, ExampleInfix + IntToString(exampleIndex))
    ensures var tag := GetEnv(env, "LLM_PROVIDER", "openai") + "-" + GetEnv(env, "MODEL_NAME", "default");
      && |r| == |projectName| + 1 + |tag| + |ExampleInfix + IntToString(exampleIndex)|
      && r[|projectName| + 1..|projectName| + 1 + |tag|] == tag
  {
    var head, tag, tail := projectName + "-", ModelTag(env), ExampleInfix + IntToString(exampleIndex);
    ThreeParts(head, tag, tail);
    head + tag + tail
  }

  /** The three parts of a concatenation can be read back from it. */
  lemma ThreeParts(a: string, b: string, c: string)
    ensures (a + b + c)[..|a|] == a
    ensures (a + b + c)[|a|..|a| + |b|] == b
    ensures (a + b + c)[|a| + |b|..] == c
  {
  }

  /** Two strings with a common prefix are equal only if the rests are. */
  lemma CommonPrefixCancels(stem: string, x: string, y: string)
    requires stem + x == stem + y
    ensures x == y
  {
    assert x == (stem + x)[|stem|..];
    assert y == (stem + y)[|stem|..];
  }

  /** Different examples of one project and model get different experiments. */
  lemma ExperimentPrefixDistinct(env: Env, projectName: string, i: int, j: int)
    requires i != j
    ensures ExperimentPrefix(env, projectName, i) != ExperimentPrefix(env, projectName, j)
  {
    var front := (projectName + "-") + ModelTag(env);
    if ExperimentPrefix(env, projectName, i) == ExperimentPrefix(env, projectName, j) {
      CommonPrefixCancels(front, ExampleInfix + IntToString(i), ExampleInfix + IntToString(j));
      CommonPrefixCancels(ExampleInfix, IntToString(i), IntToString(j));
      IntToStringInjective(i, j);
    }
  }

  function OutOfRangeMessage(index: int, total: nat): string {
    "--example " + IntToString(index) + " is out of range. Dataset has " + IntToString(total)
    + " examples (0-" + IntToString(total - 1) + ")."
  }

  /** `indices_to_run`: the one requested index if it is in range, every index in
      order when none is requested. */
  function SelectIndices(exampleIndex: Option<int>, total: nat): (r: Result<seq<int>, string>)
    ensures r.Failure? <==> exampleIndex.Some? && !(0 <= exampleIndex.value < total)
    ensures r.Failure? ==> r.error == OutOfRangeMessage(exampleIndex.value, total)
    ensures r.Success? ==> forall i :: 0 <= i < |r.value| ==> 0 <= r.value[i] < total
    ensures r.Success? && exampleIndex.Some? ==> r.value == [exampleIndex.value]
    ensures r.Success? && exampleIndex.None? ==>
      |r.value| == total && forall i :: 0 <= i < total ==> r.value[i] == i
  {
    match exampleIndex
    case Some(index) =>
      if 0 <= index < total then Success([index]) else Failure(OutOfRangeMessage(index, total))
    case None =>
      Success(seq(total, i => i))
  }
}
